/**
 * services/ExportService.ts: the CSV and HTML texts the export actions
 * share, and the two label tables they print. The locale date format is
 * a parameter.
 */
module ExportService {
  import opened Text
  import opened JsValues
  import opened Schema
  import opened Wrappers

  // ---------------------------------------------------------------------
  // Labels

  /** `labels[status] || status` over the status table. */
  function StatusLabel(status: string): (r: string)
    ensures status in {"open", "in_progress", "resolved", "closed"} <==> r != status
  {
    match status
    case "open" => "Aberto"
    case "in_progress" => "Em Andamento"
    case "resolved" => "Resolvido"
    case "closed" => "Fechado"
    case _ => status
  }

  /** `labels[priority] || priority` over the priority table, which knows 'urgent' but not 'critical'. */
  function PriorityLabel(priority: string): (r: string)
    ensures priority in {"low", "medium", "high", "urgent"} <==> r != priority
  {
    match priority
    case "low" => "Baixa"
    case "medium" => "M\U{00E9}dia"
    case "high" => "Alta"
    case "urgent" => "Urgente"
    case _ => priority
  }

  // ---------------------------------------------------------------------
  // CSV

  /** `s.replace(/"/g, '""')` */
  function DoubleQuotes(s: string): (r: string)
    ensures |r| >= |s|
  {
    if s == [] then []
    else (if s[0] == '"' then "\"\"" else [s[0]]) + DoubleQuotes(s[1..])
  }

  /** A quoted CSV field. */
  function Quoted(s: string): string {
    "\"" + DoubleQuotes(s) + "\""
  }

  /** `parts.join(sep)` */
  function Join(parts: seq<string>, sep: string): string {
    if parts == [] then ""
    else if |parts| == 1 then parts[0]
    else Join(parts[..|parts| - 1], sep) + sep + parts[|parts| - 1]
  }

  /** `headers.join(',')` */
  const CsvHeader := "ID,T\U{00ED}tulo,Descri\U{00E7}\U{00E3}o,Status,Prioridade,Criado em"

  /** One ticket's line: id, quoted title and description, the two labels, the formatted date. */
  function CsvLine(t: Ticket, formatDate: string -> string): string {
    Join([IdString(t.id), Quoted(t.title), Quoted(t.description), StatusLabel(t.status),
          PriorityLabel(t.priority), formatDate(t.createdAt)], ",")
  }

  /** generateCSV(tickets): the header, then one line per ticket, joined by newlines. */
  function GenerateCsv(ts: seq<Ticket>, formatDate: string -> string): string {
    Join([CsvHeader] + seq(|ts|, i requires 0 <= i < |ts| => CsvLine(ts[i], formatDate)), "\n")
  }

  // ---------------------------------------------------------------------
  // HTML for the PDF

  const Cell := "<td style=\"padding: 8px; border: 1px solid #ddd;\">"

  /** One ticket's table row; the title goes in as it is, unescaped. */
  function RowHtml(t: Ticket, formatDate: string -> string): string {
    "\n        <tr>\n          " + Cell + IdString(t.id)
    + "</td>\n          " + Cell + t.title
    + "</td>\n          " + Cell + StatusLabel(t.status)
    + "</td>\n          " + Cell + PriorityLabel(t.priority)
    + "</td>\n          " + Cell + formatDate(t.createdAt)
    + "</td>\n        </tr>\n      "
  }

  /** `parts.join('')` */
  function Concat(parts: seq<string>): string {
    if parts == [] then "" else Concat(parts[..|parts| - 1]) + parts[|parts| - 1]
  }

  /** `tickets.map(row)` */
  function Rows(ts: seq<Ticket>, formatDate: string -> string): (r: seq<string>)
    ensures |r| == |ts| && forall i :: 0 <= i < |ts| ==> r[i] == RowHtml(ts[i], formatDate)
  {
    seq(|ts|, i requires 0 <= i < |ts| => RowHtml(ts[i], formatDate))
  }

  /** The document up to the paragraph with the ticket count. */
  const PdfHead :=
    "\n"
    + "      <!DOCTYPE html>\n"
    + "      <html>\n"
    + "        <head>\n"
    + "          <meta charset=\"UTF-8\">\n"
    + "          <style>\n"
    + "            body {\n"
    + "              font-family: Arial, sans-serif;\n"
    + "              padding: 20px;\n"
    + "            }\n"
    + "            h1 {\n"
    + "              color: #007AFF;\n"
    + "              margin-bottom: 20px;\n"
    + "            }\n"
    + "            table {\n"
    + "              width: 100%;\n"
    + "              border-collapse: collapse;\n"
    + "              margin-top: 20px;\n"
    + "            }\n"
    + "            th {\n"
    + "              background-color: #007AFF;\n"
    + "              color: white;\n"
    + "              padding: 10px;\n"
    + "              text-align: left;\n"
    + "              border: 1px solid #ddd;\n"
    + "            }\n"
    + "            .footer {\n"
    + "              margin-top: 30px;\n"
    + "              font-size: 12px;\n"
    + "              color: #666;\n"
    + "            }\n"
    + "          </style>\n"
    + "        </head>\n"
    + "        <body>\n"
    + "          <h1>Lista de Tickets</h1>\n"
    + "          <p>"

  /** Between the count paragraph and the generation time. */
  const PdfCount := "\n          <p>Gerado em: "

  /** Between the generation time and the rows. */
  const PdfTable :=
    "</p>\n"
    + "          \n"
    + "          <table>\n"
    + "            <thead>\n"
    + "              <tr>\n"
    + "                <th>ID</th>\n"
    + "                <th>T\U{00ED}tulo</th>\n"
    + "                <th>Status</th>\n"
    + "                <th>Prioridade</th>\n"
    + "                <th>Criado em</th>\n"
    + "              </tr>\n"
    + "            </thead>\n"
    + "            <tbody>\n"
    + "              "

  /** After the rows. */
  const PdfTail :=
    "\n"
    + "            </tbody>\n"
    + "          </table>\n"
    + "          \n"
    + "          <div class=\"footer\">\n"
    + "            <p>Relat\U{00F3}rio gerado pelo Sistema de Ticketeria</p>\n"
    + "          </div>\n"
    + "        </body>\n"
    + "      </html>\n"
    + "    "

  /** The count paragraph's text. */
  function CountText(n: nat): string {
    "Total de tickets: " + NatToString(n) + "</p>"
  }

  /** generatePDFHTML(tickets), with `generatedAt` the locale text of the clock. */
  function GeneratePdfHtml(ts: seq<Ticket>, formatDate: string -> string, generatedAt: string): string {
    PdfHead + CountText(|ts|) + PdfBody(Concat(Rows(ts, formatDate)), generatedAt)
  }

  /** The document after the count paragraph, around the rows. */
  function PdfBody(rows: string, generatedAt: string): string {
    PdfCount + generatedAt + PdfTable + rows + PdfTail
  }

  // ---------------------------------------------------------------------
  // Properties

  /** Reads the inside of a quoted field up to its closing quote: a doubled quote stands for one. */
  function ReadQuoted(s: string): Option<(string, string)>
    decreases |s|
  {
    if s == [] then None
    else if s[0] == '"' then
      if |s| > 1 && s[1] == '"' then
        match ReadQuoted(s[2..])
        case None => None
        case Some(p) => Some(("\"" + p.0, p.1))
      else Some(("", s[1..]))
    else
      match ReadQuoted(s[1..])
      case None => None
      case Some(p) => Some(([s[0]] + p.0, p.1))
  }

  /**
   * A quoted field reads back as the text it quotes, with the rest of the
   * line left over, whatever quotes the text holds.
   */
  lemma QuotedRoundTrip(x: string, rest: string)
    requires rest == [] || rest[0] != '"'
    ensures ReadQuoted(Quoted(x)[1..] + rest) == Some((x, rest))
  {
    assert Quoted(x)[1..] + rest == DoubleQuotes(x) + "\"" + rest;
    InsideRoundTrip(x, rest);
  }

  /** The doubled text followed by the closing quote reads back as the text. */
  lemma {:induction false} InsideRoundTrip(x: string, rest: string)
    requires rest == [] || rest[0] != '"'
    ensures ReadQuoted(DoubleQuotes(x) + "\"" + rest) == Some((x, rest))
    decreases |x|
  {
    if x == [] {
      ReadClosing(rest);
    } else {
      InsideRoundTrip(x[1..], rest);
      InsideStep(x, rest);
    }
  }

  /** One character of the text further: the step of the round trip. */
  lemma InsideStep(x: string, rest: string)
    requires x != [] && ReadQuoted(DoubleQuotes(x[1..]) + "\"" + rest) == Some((x[1..], rest))
    ensures ReadQuoted(DoubleQuotes(x) + "\"" + rest) == Some((x, rest))
  {
    var d := DoubleQuotes(x[1..]);
    var tail := d + "\"" + rest;
    var head := if x[0] == '"' then "\"\"" else [x[0]];
    assert DoubleQuotes(x) == head + d;
    Regroup(head, d, rest);
    assert [x[0]] + x[1..] == x;
    if x[0] == '"' {
      ReadPair(tail, x[1..], rest);
    } else {
      ReadOther(x[0], tail, x[1..], rest);
    }
  }

  /** The doubled head joined to the rest of the field. */
  lemma Regroup(head: string, d: string, rest: string)
    ensures head + d + "\"" + rest == head + (d + "\"" + rest)
  {
  }

  /** A lone quote ends the field. */
  lemma ReadClosing(rest: string)
    requires rest == [] || rest[0] != '"'
    ensures ReadQuoted("\"" + rest) == Some(("", rest))
  {
    assert ("\"" + rest)[1..] == rest;
  }

  /** A doubled quote reads as one quote. */
  lemma ReadPair(tail: string, y: string, r: string)
    requires ReadQuoted(tail) == Some((y, r))
    ensures ReadQuoted("\"\"" + tail) == Some(("\"" + y, r))
  {
    assert ("\"\"" + tail)[2..] == tail;
  }

  /** Any other character reads as itself. */
  lemma ReadOther(c: char, tail: string, y: string, r: string)
    requires c != '"' && ReadQuoted(tail) == Some((y, r))
    ensures ReadQuoted([c] + tail) == Some(([c] + y, r))
  {
    assert ([c] + tail)[1..] == tail;
  }

  /** The CSV of no tickets is the header alone; each further ticket adds a newline and its line at the end. */
  lemma CsvLines(ts: seq<Ticket>, t: Ticket, formatDate: string -> string)
    ensures GenerateCsv([], formatDate) == CsvHeader
    ensures GenerateCsv(ts + [t], formatDate) == GenerateCsv(ts, formatDate) + "\n" + CsvLine(t, formatDate)
  {
    var lines := [CsvHeader] + seq(|ts|, i requires 0 <= i < |ts| => CsvLine(ts[i], formatDate));
    var lines' := [CsvHeader] + seq(|ts| + 1, i requires 0 <= i < |ts| + 1 => CsvLine((ts + [t])[i], formatDate));
    assert lines'[..|lines'| - 1] == lines;
  }

  /** The CSV always begins with the header line. */
  lemma {:induction false} CsvStartsWithHeader(ts: seq<Ticket>, formatDate: string -> string)
    ensures StartsWith(GenerateCsv(ts, formatDate), CsvHeader)
    decreases |ts|
  {
    if ts == [] {
      CsvLines([], Ticket(Num(0), "", "", "", "", "", "", "", [], [], None), formatDate);
    } else {
      var init := ts[..|ts| - 1];
      CsvStartsWithHeader(init, formatDate);
      CsvLines(init, ts[|ts| - 1], formatDate);
      assert init + [ts[|ts| - 1]] == ts;
      var c := GenerateCsv(init, formatDate);
      assert (c + "\n" + CsvLine(ts[|ts| - 1], formatDate))[..|CsvHeader|] == c[..|CsvHeader|];
    }
  }

  /** The rows of the PDF are the tickets' rows in input order: one more ticket, one more row at the end. */
  lemma RowsInOrder(ts: seq<Ticket>, t: Ticket, formatDate: string -> string)
    ensures Concat(Rows(ts + [t], formatDate)) == Concat(Rows(ts, formatDate)) + RowHtml(t, formatDate)
  {
    var r := Rows(ts + [t], formatDate);
    assert r[..|r| - 1] == Rows(ts, formatDate);
  }

  /** The document states how many tickets it lists. */
  lemma PdfStatesCount(ts: seq<Ticket>, formatDate: string -> string, generatedAt: string)
    ensures Contains(GeneratePdfHtml(ts, formatDate, generatedAt), CountText(|ts|))
  {
    ContainsInfix(PdfHead, CountText(|ts|), PdfBody(Concat(Rows(ts, formatDate)), generatedAt));
  }
}
