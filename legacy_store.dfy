/**
 * The legacy local store (services/SQLiteService.ts): the statements the
 * sync pass and the status hook run against `tickets`, `comments` and
 * `attachments`. Each statement is a method on the database whose
 * contract names the rows it changes; each SELECT is a method whose loop
 * copies the result rows, proved against a query function.
 */
module LegacyStore {
  import opened Wrappers
  import opened Text
  import opened JsValues
  import opened Query
  import opened Schema

  // ---------------------------------------------------------------------
  // What the SELECTs report

  datatype CommentView = CommentView(
    id: string, ticketId: string, text: string, createdAt: string,
    createdBy: Option<Creator>, isSynced: bool, localId: string)

  datatype AttachmentView = AttachmentView(
    id: string, ticketId: string, name: string, url: string, kind: string,
    size: int, localUri: string, isSynced: bool, localId: string)

  datatype TicketView = TicketView(
    id: string, title: string, description: string, category: string,
    priority: string, status: string, createdAt: string, updatedAt: string,
    createdBy: Option<Creator>, comments: seq<CommentView>, attachments: seq<AttachmentView>,
    isSynced: bool, localId: string)

  function ViewTicket(r: TicketRow, cs: seq<CommentView>, as_: seq<AttachmentView>, synced: bool): TicketView {
    TicketView(r.id, r.title, r.description, r.category, r.priority, r.status, r.createdAt,
               r.updatedAt, r.createdBy, cs, as_, synced, r.localId)
  }

  function ViewComment(r: CommentRow, synced: bool): CommentView {
    CommentView(r.id, r.ticketId, r.text, r.createdAt, r.createdBy, synced, r.localId)
  }

  function ViewAttachment(r: AttachmentRow): AttachmentView {
    AttachmentView(r.id, r.ticketId, r.name, r.url, r.kind, r.size, r.localUri, r.isSynced == 1, r.localId)
  }

  // ---------------------------------------------------------------------
  // Tickets

  /** `ticket.id || generateLocalId()`: the value saveTicketLocally keys the row by and returns. */
  function RowKey(id: Option<JsId>, env: Env): (k: JsId)
    ensures IdTruthy(id) ==> k == id.value
    ensures !IdTruthy(id) ==> StartsWith(IdString(k), "local_")
  {
    if IdTruthy(id) then id.value else Str(LocalId(env))
  }

  /** The row saveTicketLocally writes, with the defaults of its VALUES list. */
  function NewTicketRow(t: TicketInput, key: string, now: string): (r: TicketRow)
    ensures r.id == key && r.localId == key && r.serverData == t
    ensures r.isSynced == (if IdTruthy(t.id) then 1 else 0)
    ensures r.priority == OrElse(t.priority, "medium") && r.status == OrElse(t.status, "open")
    ensures r.createdAt == OrElse(t.createdAt, now) && r.updatedAt == OrElse(t.updatedAt, now)
  {
    TicketRow(key, OrElse(t.title, ""), OrElse(t.description, ""), OrElse(t.category, ""),
              OrElse(t.priority, "medium"), OrElse(t.status, "open"),
              OrElse(t.createdAt, now), OrElse(t.updatedAt, now), t.createdBy,
              if IdTruthy(t.id) then 1 else 0, key, t)
  }

  /** saveTicketLocally: INSERT OR REPLACE keyed by the given id or a fresh local id. */
  method SaveTicketLocally(db: Database, ticket: TicketInput, env: Env) returns (key: JsId)
    requires db.Valid()
    modifies db`tickets
    ensures db.Valid()
    ensures key == RowKey(ticket.id, env)
    ensures db.tickets == Upsert(old(db.tickets), NewTicketRow(ticket, IdString(key), env.nowIso), TicketKey)
  {
    key := RowKey(ticket.id, env);
    var row := NewTicketRow(ticket, IdString(key), env.nowIso);
    UpsertKeys(db.tickets, row, TicketKey);
    db.tickets := Upsert(db.tickets, row, TicketKey);
  }

  /** The optional filters of getTicketsLocally; each applies only when truthy. */
  datatype Filters = Filters(status: Option<string>, category: Option<string>, search: Option<string>)

  /** `col LIKE '%s%'`: a substring test that ignores ASCII case, as SQLite's LIKE does. */
  predicate Like(col: string, s: string) {
    Contains(AsciiLower(col), AsciiLower(s))
  }

  /** The WHERE clause built from the filters. */
  predicate MatchesFilters(f: Filters, r: TicketRow) {
    (Truthy(f.status) ==> r.status == f.status.value)
    && (Truthy(f.category) ==> r.category == f.category.value)
    && (Truthy(f.search) ==> Like(r.title, f.search.value) || Like(r.description, f.search.value))
  }

  function CreatedAtKey(r: TicketRow): string { r.createdAt }

  /** `SELECT * FROM tickets WHERE ... ORDER BY createdAt DESC` */
  function TicketsQuery(rows: seq<TicketRow>, f: Filters): seq<TicketRow> {
    OrderBy(Filter(rows, r => MatchesFilters(f, r)), CreatedAtKey, true)
  }

  /**
   * getTicketsLocally reports exactly the rows meeting every supplied
   * filter, each as often as stored, newest first.
   */
  lemma TicketsQueryExact(rows: seq<TicketRow>, f: Filters)
    ensures var q := TicketsQuery(rows, f);
      (forall r :: r in q <==>
        r in rows
        && (Truthy(f.status) ==> r.status == f.status.value)
        && (Truthy(f.category) ==> r.category == f.category.value)
        && (Truthy(f.search) ==> Like(r.title, f.search.value) || Like(r.description, f.search.value)))
      && SortedBy(q, CreatedAtKey, true)
      && multiset(q) == multiset(Filter(rows, r => MatchesFilters(f, r)))
  {
    var p := r => MatchesFilters(f, r);
    OrderByMembers(Filter(rows, p), CreatedAtKey, true);
    OrderBySorted(Filter(rows, p), CreatedAtKey, true);
    OrderByPermutation(Filter(rows, p), CreatedAtKey, true);
    forall r | r in rows && p(r) ensures r in Filter(rows, p) {
      var k :| 0 <= k < |rows| && rows[k] == r;
    }
    forall r | r in Filter(rows, p) ensures r in rows && p(r) {
      var k :| 0 <= k < |Filter(rows, p)| && Filter(rows, p)[k] == r;
    }
  }

  /** Without filters every row is reported. */
  lemma NoFiltersKeepAll(rows: seq<TicketRow>)
    ensures multiset(TicketsQuery(rows, Filters(None, None, None))) == multiset(rows)
  {
    FilterAll(rows, r => MatchesFilters(Filters(None, None, None), r));
    OrderByPermutation(rows, CreatedAtKey, true);
  }

  /** getTicketsLocally: runs the query and copies each row into a list entry. */
  method GetTicketsLocally(db: Database, f: Filters) returns (r: seq<TicketView>)
    ensures var q := TicketsQuery(db.tickets, f);
      |r| == |q| && forall k :: 0 <= k < |q| ==> r[k] == ViewTicket(q[k], [], [], q[k].isSynced == 1)
  {
    var rows := TicketsQuery(db.tickets, f);
    r := [];
    var i := 0;
    while i < |rows|
      invariant 0 <= i <= |rows| && |r| == i
      invariant forall k :: 0 <= k < i ==> r[k] == ViewTicket(rows[k], [], [], rows[k].isSynced == 1)
    {
      r := r + [ViewTicket(rows[i], [], [], rows[i].isSynced == 1)];
      i := i + 1;
    }
  }

  /** `WHERE id = ? OR localId = ?` */
  predicate IdOrLocal(r: TicketRow, ticketId: string) {
    r.id == ticketId || r.localId == ticketId
  }

  function TicketsById(rows: seq<TicketRow>, ticketId: string): seq<TicketRow> {
    Filter(rows, r => IdOrLocal(r, ticketId))
  }

  /** `SELECT * FROM comments WHERE ticketId = ? ORDER BY createdAt ASC` */
  function CommentsQuery(rows: seq<CommentRow>, ticketId: string): seq<CommentRow> {
    OrderBy(Filter(rows, (c: CommentRow) => c.ticketId == ticketId), CommentCreatedAt, false)
  }

  function CommentCreatedAt(c: CommentRow): string { c.createdAt }

  /** A ticket's comments are exactly its own, oldest first. */
  lemma CommentsQueryExact(rows: seq<CommentRow>, ticketId: string)
    ensures var q := CommentsQuery(rows, ticketId);
      (forall c :: c in q <==> c in rows && c.ticketId == ticketId)
      && SortedBy(q, CommentCreatedAt, false)
  {
    var p := (c: CommentRow) => c.ticketId == ticketId;
    OrderByMembers(Filter(rows, p), CommentCreatedAt, false);
    OrderBySorted(Filter(rows, p), CommentCreatedAt, false);
    forall c | c in rows && p(c) ensures c in Filter(rows, p) {
      var k :| 0 <= k < |rows| && rows[k] == c;
    }
    forall c | c in Filter(rows, p) ensures c in rows && p(c) {
      var k :| 0 <= k < |Filter(rows, p)| && Filter(rows, p)[k] == c;
    }
  }

  /** `SELECT * FROM attachments WHERE ticketId = ?` (no ORDER BY: table order). */
  function AttachmentsQuery(rows: seq<AttachmentRow>, ticketId: string): seq<AttachmentRow> {
    Filter(rows, (a: AttachmentRow) => a.ticketId == ticketId)
  }

  /** getCommentsByTicketIdLocally */
  method GetCommentsByTicketIdLocally(db: Database, ticketId: string) returns (r: seq<CommentView>)
    ensures var q := CommentsQuery(db.comments, ticketId);
      |r| == |q| && forall k :: 0 <= k < |q| ==> r[k] == ViewComment(q[k], q[k].isSynced == 1)
  {
    var rows := CommentsQuery(db.comments, ticketId);
    r := [];
    var i := 0;
    while i < |rows|
      invariant 0 <= i <= |rows| && |r| == i
      invariant forall k :: 0 <= k < i ==> r[k] == ViewComment(rows[k], rows[k].isSynced == 1)
    {
      r := r + [ViewComment(rows[i], rows[i].isSynced == 1)];
      i := i + 1;
    }
  }

  /** getAttachmentsByTicketIdLocally */
  method GetAttachmentsByTicketIdLocally(db: Database, ticketId: string) returns (r: seq<AttachmentView>)
    ensures var q := AttachmentsQuery(db.attachments, ticketId);
      |r| == |q| && forall k :: 0 <= k < |q| ==> r[k] == ViewAttachment(q[k])
  {
    var rows := AttachmentsQuery(db.attachments, ticketId);
    r := [];
    var i := 0;
    while i < |rows|
      invariant 0 <= i <= |rows| && |r| == i
      invariant forall k :: 0 <= k < i ==> r[k] == ViewAttachment(rows[k])
    {
      r := r + [ViewAttachment(rows[i])];
      i := i + 1;
    }
  }

  /**
   * getTicketByIdLocally: null when no row has that id or localId;
   * otherwise the first such row with the comments and attachments filed
   * under its id.
   */
  method GetTicketByIdLocally(db: Database, ticketId: string) returns (r: Option<TicketView>)
    ensures r.None? <==> forall t :: t in db.tickets ==> !IdOrLocal(t, ticketId)
    ensures r.Some? ==>
      var row := TicketsById(db.tickets, ticketId)[0];
      IdOrLocal(row, ticketId)
      && r.value.id == row.id && r.value.localId == row.localId && r.value.isSynced == (row.isSynced == 1)
      && |r.value.comments| == |CommentsQuery(db.comments, row.id)|
      && (forall k :: 0 <= k < |r.value.comments| ==>
            r.value.comments[k] == ViewComment(CommentsQuery(db.comments, row.id)[k], CommentsQuery(db.comments, row.id)[k].isSynced == 1))
      && |r.value.attachments| == |AttachmentsQuery(db.attachments, row.id)|
      && (forall k :: 0 <= k < |r.value.attachments| ==>
            r.value.attachments[k] == ViewAttachment(AttachmentsQuery(db.attachments, row.id)[k]))
      && r.value == ViewTicket(row, r.value.comments, r.value.attachments, row.isSynced == 1)
  {
    var hits := TicketsById(db.tickets, ticketId);
    if |hits| == 0 {
      forall t | t in db.tickets ensures !IdOrLocal(t, ticketId) {
        var k :| 0 <= k < |db.tickets| && db.tickets[k] == t;
      }
      return None;
    }
    var row := hits[0];
    var comments := GetCommentsByTicketIdLocally(db, row.id);
    var attachments := GetAttachmentsByTicketIdLocally(db, row.id);
    r := Some(ViewTicket(row, comments, attachments, row.isSynced == 1));
  }

  /**
   * The SET list of updateTicketLocally applied to one row: a field the
   * update gives replaces the stored one, a field it leaves out stays.
   */
  function ApplyUpdate(r: TicketRow, u: Patch, now: string): (r': TicketRow)
    ensures r'.isSynced == 0 && r'.updatedAt == now
    ensures r'.id == r.id && r'.localId == r.localId && r'.createdAt == r.createdAt
    ensures r'.createdBy == r.createdBy && r'.serverData == r.serverData
    ensures u.title.Some? ==> r'.title == u.title.value
    ensures u.title.None? ==> r'.title == r.title
    ensures u.description.Some? ==> r'.description == u.description.value
    ensures u.description.None? ==> r'.description == r.description
    ensures u.category.Some? ==> r'.category == u.category.value
    ensures u.category.None? ==> r'.category == r.category
    ensures u.priority.Some? ==> r'.priority == u.priority.value
    ensures u.priority.None? ==> r'.priority == r.priority
    ensures u.status.Some? ==> r'.status == u.status.value
    ensures u.status.None? ==> r'.status == r.status
  {
    r.(title := u.title.GetOr(r.title), description := u.description.GetOr(r.description),
       category := u.category.GetOr(r.category), priority := u.priority.GetOr(r.priority),
       status := u.status.GetOr(r.status), updatedAt := now, isSynced := 0)
  }

  /** updateTicketLocally: every row whose id or localId matches gets the update; no other row changes. */
  method UpdateTicketLocally(db: Database, ticketId: string, u: Patch, env: Env)
    requires db.Valid()
    modifies db`tickets
    ensures db.Valid()
    ensures db.tickets == MapWhere(old(db.tickets), r => IdOrLocal(r, ticketId), r => ApplyUpdate(r, u, env.nowIso))
  {
    MapWhereKeepsKeys(db.tickets, r => IdOrLocal(r, ticketId), r => ApplyUpdate(r, u, env.nowIso), TicketKey);
    db.tickets := MapWhere(db.tickets, r => IdOrLocal(r, ticketId), r => ApplyUpdate(r, u, env.nowIso));
  }

  /** deleteTicketLocally: every row whose id or localId matches goes; the rest stay in order. */
  method DeleteTicketLocally(db: Database, ticketId: string)
    requires db.Valid()
    modifies db`tickets
    ensures db.Valid()
    ensures db.tickets == Filter(old(db.tickets), r => !IdOrLocal(r, ticketId))
  {
    FilterUnique(db.tickets, r => !IdOrLocal(r, ticketId), TicketKey);
    db.tickets := Filter(db.tickets, r => !IdOrLocal(r, ticketId));
  }

  /** Deleting twice is deleting once, and deleting an absent id changes nothing. */
  lemma DeleteIdempotent(rows: seq<TicketRow>, ticketId: string)
    ensures Filter(Filter(rows, r => !IdOrLocal(r, ticketId)), r => !IdOrLocal(r, ticketId))
            == Filter(rows, r => !IdOrLocal(r, ticketId))
    ensures (forall r :: r in rows ==> !IdOrLocal(r, ticketId)) ==> Filter(rows, r => !IdOrLocal(r, ticketId)) == rows
  {
    FilterIdempotent(rows, r => !IdOrLocal(r, ticketId));
    if forall r :: r in rows ==> !IdOrLocal(r, ticketId) {
      FilterAll(rows, r => !IdOrLocal(r, ticketId));
    }
  }

  function SyncedTicket(r: TicketRow, serverId: string): TicketRow {
    r.(id := serverId, isSynced := 1)
  }

  /** The table markTicketAsSynced leaves, or None when its UPDATE would break the primary key. */
  function MarkTickets(rows: seq<TicketRow>, localId: string, serverId: string): Option<seq<TicketRow>> {
    if RekeyConflict(rows, (r: TicketRow) => r.localId == localId, TicketKey, serverId) then None
    else Some(MapWhere(rows, (r: TicketRow) => r.localId == localId, r => SyncedTicket(r, serverId)))
  }

  /**
   * markTicketAsSynced: `UPDATE tickets SET id = serverId, isSynced = 1
   * WHERE localId = ?`. The statement fails, changing nothing, when the new
   * id would break the primary key.
   */
  method MarkTicketAsSynced(db: Database, localId: string, serverId: string) returns (res: Outcome)
    requires db.Valid()
    modifies db`tickets
    ensures db.Valid()
    ensures res.Fail? <==> RekeyConflict(old(db.tickets), (r: TicketRow) => r.localId == localId, TicketKey, serverId)
    ensures res.Fail? ==> db.tickets == old(db.tickets)
    ensures res.Pass? ==> db.tickets == MapWhere(old(db.tickets), (r: TicketRow) => r.localId == localId, r => SyncedTicket(r, serverId))
    ensures res.Pass? == MarkTickets(old(db.tickets), localId, serverId).Some?
    ensures db.tickets == MarkTickets(old(db.tickets), localId, serverId).GetOr(old(db.tickets))
  {
    if RekeyConflict(db.tickets, (r: TicketRow) => r.localId == localId, TicketKey, serverId) {
      return Fail("UNIQUE constraint failed: tickets.id");
    }
    RekeyUnique(db.tickets, (r: TicketRow) => r.localId == localId, r => SyncedTicket(r, serverId), TicketKey, serverId);
    db.tickets := MapWhere(db.tickets, (r: TicketRow) => r.localId == localId, r => SyncedTicket(r, serverId));
    res := Pass;
  }

  /** `SELECT * FROM tickets WHERE isSynced = 0` */
  function UnsyncedTicketsQuery(rows: seq<TicketRow>): seq<TicketRow> {
    Filter(rows, (r: TicketRow) => r.isSynced == 0)
  }

  /** What getUnsyncedTickets reports for a table. */
  function UnsyncedTicketViews(rows: seq<TicketRow>): seq<TicketView> {
    var q := UnsyncedTicketsQuery(rows);
    seq(|q|, k requires 0 <= k < |q| => ViewTicket(q[k], [], [], false))
  }

  /** getUnsyncedTickets: every row with isSynced = 0, reported with `_isSynced` false. */
  method GetUnsyncedTickets(db: Database) returns (r: seq<TicketView>)
    ensures var q := UnsyncedTicketsQuery(db.tickets);
      |r| == |q| && forall k :: 0 <= k < |q| ==> r[k] == ViewTicket(q[k], [], [], false) && q[k].isSynced == 0
    ensures r == UnsyncedTicketViews(db.tickets)
  {
    var rows := UnsyncedTicketsQuery(db.tickets);
    r := [];
    var i := 0;
    while i < |rows|
      invariant 0 <= i <= |rows| && |r| == i
      invariant forall k :: 0 <= k < i ==> r[k] == ViewTicket(rows[k], [], [], false)
    {
      r := r + [ViewTicket(rows[i], [], [], false)];
      i := i + 1;
    }
  }

  /** A marked row leaves the unsynced set, and no unsynced row under another localId is affected. */
  lemma MarkedTicketPastUnsynced(rows: seq<TicketRow>, localId: string, serverId: string)
    ensures var after := MapWhere(rows, (r: TicketRow) => r.localId == localId, r => SyncedTicket(r, serverId));
      (forall r :: r in UnsyncedTicketsQuery(after) ==> r.localId != localId)
      && UnsyncedTicketsQuery(after) == Filter(rows, (r: TicketRow) => r.isSynced == 0 && r.localId != localId)
  {
    var after := MapWhere(rows, (r: TicketRow) => r.localId == localId, r => SyncedTicket(r, serverId));
    MarkedFilter(rows, localId, serverId);
    forall r | r in UnsyncedTicketsQuery(after) ensures r.localId != localId {
      var k :| 0 <= k < |UnsyncedTicketsQuery(after)| && UnsyncedTicketsQuery(after)[k] == r;
    }
  }

  lemma {:induction false} MarkedFilter(rows: seq<TicketRow>, localId: string, serverId: string)
    ensures UnsyncedTicketsQuery(MapWhere(rows, (r: TicketRow) => r.localId == localId, r => SyncedTicket(r, serverId)))
            == Filter(rows, (r: TicketRow) => r.isSynced == 0 && r.localId != localId)
  {
    if rows != [] {
      var init := rows[..|rows| - 1];
      MarkedFilter(init, localId, serverId);
      var m := MapWhere(rows, (r: TicketRow) => r.localId == localId, r => SyncedTicket(r, serverId));
      assert m[..|m| - 1] == MapWhere(init, (r: TicketRow) => r.localId == localId, r => SyncedTicket(r, serverId));
    }
  }

  /**
   * A ticket created locally keeps its 'local_' localId when it is marked
   * synced, and any later edit puts it back among the unsynced rows; so a
   * later sync pass takes the create branch for it again.
   */
  lemma SyncedTicketComesBack(row: TicketRow, serverId: string, u: Patch, now: string)
    requires StartsWith(row.localId, "local_")
    ensures var edited := ApplyUpdate(SyncedTicket(row, serverId), u, now);
      edited.isSynced == 0 && StartsWith(edited.localId, "local_") && edited.id == serverId
      && UnsyncedTicketsQuery([edited]) == [edited]
  {
  }

  // ---------------------------------------------------------------------
  // Comments

  /** The untyped comment object handed to saveCommentLocally. */
  datatype CommentInput = CommentInput(
    id: Option<JsId>, ticketId: Option<JsId>, text: Option<string>,
    createdAt: Option<string>, createdBy: Option<Creator>)

  function NewCommentRow(c: CommentInput, key: string, now: string): (r: CommentRow)
    ensures r.id == key && r.localId == key
    ensures r.isSynced == (if IdTruthy(c.id) then 1 else 0)
    ensures r.ticketId == (if IdTruthy(c.ticketId) then IdString(c.ticketId.value) else "")
    ensures r.createdAt == OrElse(c.createdAt, now)
  {
    CommentRow(key, if IdTruthy(c.ticketId) then IdString(c.ticketId.value) else "",
               OrElse(c.text, ""), OrElse(c.createdAt, now), c.createdBy,
               if IdTruthy(c.id) then 1 else 0, key)
  }

  /** saveCommentLocally: INSERT OR REPLACE keyed by the given id or a fresh local id. */
  method SaveCommentLocally(db: Database, c: CommentInput, env: Env) returns (key: JsId)
    requires db.Valid()
    modifies db`comments
    ensures db.Valid()
    ensures key == RowKey(c.id, env)
    ensures db.comments == Upsert(old(db.comments), NewCommentRow(c, IdString(key), env.nowIso), CommentKey)
  {
    key := RowKey(c.id, env);
    var row := NewCommentRow(c, IdString(key), env.nowIso);
    UpsertKeys(db.comments, row, CommentKey);
    db.comments := Upsert(db.comments, row, CommentKey);
  }

  /** The table markCommentAsSynced leaves, or None when its UPDATE would break the primary key. */
  function MarkComments(rows: seq<CommentRow>, localId: string, serverId: string): Option<seq<CommentRow>> {
    if RekeyConflict(rows, (r: CommentRow) => r.localId == localId, CommentKey, serverId) then None
    else Some(MapWhere(rows, (r: CommentRow) => r.localId == localId, (r: CommentRow) => r.(id := serverId, isSynced := 1)))
  }

  /** markCommentAsSynced: id := serverId and isSynced := 1 where localId matches. */
  method MarkCommentAsSynced(db: Database, localId: string, serverId: string) returns (res: Outcome)
    requires db.Valid()
    modifies db`comments
    ensures db.Valid()
    ensures res.Fail? <==> RekeyConflict(old(db.comments), (r: CommentRow) => r.localId == localId, CommentKey, serverId)
    ensures res.Fail? ==> db.comments == old(db.comments)
    ensures res.Pass? ==> db.comments == MapWhere(old(db.comments), (r: CommentRow) => r.localId == localId,
                                                  (r: CommentRow) => r.(id := serverId, isSynced := 1))
    ensures res.Pass? == MarkComments(old(db.comments), localId, serverId).Some?
    ensures db.comments == MarkComments(old(db.comments), localId, serverId).GetOr(old(db.comments))
  {
    if RekeyConflict(db.comments, (r: CommentRow) => r.localId == localId, CommentKey, serverId) {
      return Fail("UNIQUE constraint failed: comments.id");
    }
    RekeyUnique(db.comments, (r: CommentRow) => r.localId == localId,
                (r: CommentRow) => r.(id := serverId, isSynced := 1), CommentKey, serverId);
    db.comments := MapWhere(db.comments, (r: CommentRow) => r.localId == localId,
                            (r: CommentRow) => r.(id := serverId, isSynced := 1));
    res := Pass;
  }

  /** `SELECT * FROM comments WHERE isSynced = 0` */
  function UnsyncedCommentsQuery(rows: seq<CommentRow>): seq<CommentRow> {
    Filter(rows, (r: CommentRow) => r.isSynced == 0)
  }

  /** What getUnsyncedComments reports for a table. */
  function UnsyncedCommentViews(rows: seq<CommentRow>): seq<CommentView> {
    var q := UnsyncedCommentsQuery(rows);
    seq(|q|, k requires 0 <= k < |q| => ViewComment(q[k], false))
  }

  /** getUnsyncedComments: every comment row with isSynced = 0, reported with `_isSynced` false. */
  method GetUnsyncedComments(db: Database) returns (r: seq<CommentView>)
    ensures var q := UnsyncedCommentsQuery(db.comments);
      |r| == |q| && forall k :: 0 <= k < |q| ==> r[k] == ViewComment(q[k], false) && q[k].isSynced == 0
    ensures r == UnsyncedCommentViews(db.comments)
  {
    var rows := UnsyncedCommentsQuery(db.comments);
    r := [];
    var i := 0;
    while i < |rows|
      invariant 0 <= i <= |rows| && |r| == i
      invariant forall k :: 0 <= k < i ==> r[k] == ViewComment(rows[k], false)
    {
      r := r + [ViewComment(rows[i], false)];
      i := i + 1;
    }
  }

  // ---------------------------------------------------------------------
  // Attachments

  datatype AttachmentInput = AttachmentInput(
    id: Option<JsId>, ticketId: Option<string>, name: Option<string>, url: Option<string>,
    kind: Option<string>, size: Option<int>, localUri: Option<string>)

  function NewAttachmentRow(a: AttachmentInput, key: string): (r: AttachmentRow)
    ensures r.id == key && r.localId == key
    ensures r.isSynced == (if IdTruthy(a.id) then 1 else 0)
    ensures r.size == (if a.size.Some? then a.size.value else 0)
  {
    AttachmentRow(key, OrElse(a.ticketId, ""), OrElse(a.name, ""), OrElse(a.url, ""),
                  OrElse(a.kind, ""), a.size.GetOr(0), OrElse(a.localUri, ""),
                  if IdTruthy(a.id) then 1 else 0, key)
  }

  /** saveAttachmentLocally: INSERT OR REPLACE keyed by the given id or a fresh local id. */
  method SaveAttachmentLocally(db: Database, a: AttachmentInput, env: Env) returns (key: JsId)
    requires db.Valid()
    modifies db`attachments
    ensures db.Valid()
    ensures key == RowKey(a.id, env)
    ensures db.attachments == Upsert(old(db.attachments), NewAttachmentRow(a, IdString(key)), AttachmentKey)
  {
    key := RowKey(a.id, env);
    var row := NewAttachmentRow(a, IdString(key));
    UpsertKeys(db.attachments, row, AttachmentKey);
    db.attachments := Upsert(db.attachments, row, AttachmentKey);
  }

  /** markAttachmentAsSynced: id := serverId and isSynced := 1 where localId matches. */
  method MarkAttachmentAsSynced(db: Database, localId: string, serverId: string) returns (res: Outcome)
    requires db.Valid()
    modifies db`attachments
    ensures db.Valid()
    ensures res.Fail? <==> RekeyConflict(old(db.attachments), (r: AttachmentRow) => r.localId == localId, AttachmentKey, serverId)
    ensures res.Fail? ==> db.attachments == old(db.attachments)
    ensures res.Pass? ==> db.attachments == MapWhere(old(db.attachments), (r: AttachmentRow) => r.localId == localId,
                                                     (r: AttachmentRow) => r.(id := serverId, isSynced := 1))
  {
    if RekeyConflict(db.attachments, (r: AttachmentRow) => r.localId == localId, AttachmentKey, serverId) {
      return Fail("UNIQUE constraint failed: attachments.id");
    }
    RekeyUnique(db.attachments, (r: AttachmentRow) => r.localId == localId,
                (r: AttachmentRow) => r.(id := serverId, isSynced := 1), AttachmentKey, serverId);
    db.attachments := MapWhere(db.attachments, (r: AttachmentRow) => r.localId == localId,
                               (r: AttachmentRow) => r.(id := serverId, isSynced := 1));
    res := Pass;
  }
}
