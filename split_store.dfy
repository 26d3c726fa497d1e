/**
 * The split local store (the files under services/SQLiteService). Part of it works
 * on the legacy `tickets`, `comments` and `attachments` tables; the rest
 * works on the newer `Tickets`, `TicketComments` and `PendingTicketActions`
 * tables, which have integer ids, a nullable server id and a sync status.
 * No CREATE TABLE for the newer tables exists in the repository:
 * database/database.ts creates only the four legacy tables, and SQLite
 * would even read `Tickets` as the legacy `tickets`. The model assumes a
 * separate newer schema with the columns of interfaces/database.ts, kept
 * beside the legacy tables and never merged with them.
 */
module SplitStore {
  import opened Wrappers
  import opened Text
  import opened JsValues
  import opened Query
  import opened Schema
  import opened LegacyStore

  // ---------------------------------------------------------------------
  // Legacy-schema statements

  /** saveTicketLocally: the legacy row, keyed by `String(ticket.id)` or a fresh local id. */
  method SaveTicketLocally(db: Database, ticket: TicketInput, env: Env) returns (key: string)
    requires db.Valid()
    modifies db`tickets
    ensures db.Valid()
    ensures key == (if IdTruthy(ticket.id) then IdString(ticket.id.value) else LocalId(env))
    ensures db.tickets == Upsert(old(db.tickets), NewTicketRow(ticket, key, env.nowIso), TicketKey)
  {
    key := if IdTruthy(ticket.id) then IdString(ticket.id.value) else LocalId(env);
    var row := NewTicketRow(ticket, key, env.nowIso);
    UpsertKeys(db.tickets, row, TicketKey);
    db.tickets := Upsert(db.tickets, row, TicketKey);
  }

  /**
   * Saving two inputs under one id leaves a single row under that id,
   * holding the second write.
   */
  lemma SaveTwiceKeepsSecond(rows: seq<TicketRow>, a: TicketInput, b: TicketInput, key: string, now1: string, now2: string)
    requires Unique(rows, TicketKey)
    ensures var after := Upsert(Upsert(rows, NewTicketRow(a, key, now1), TicketKey), NewTicketRow(b, key, now2), TicketKey);
      after == Upsert(rows, NewTicketRow(b, key, now2), TicketKey)
      && Unique(after, TicketKey)
      && (forall i :: 0 <= i < |after| && after[i].id == key ==> after[i] == NewTicketRow(b, key, now2))
  {
    UpsertTwice(rows, NewTicketRow(a, key, now1), NewTicketRow(b, key, now2), TicketKey);
    UpsertKeys(rows, NewTicketRow(b, key, now2), TicketKey);
  }

  /** The filters of the paged getTicketsLocally. */
  datatype PagedFilters = PagedFilters(base: Filters, page: Option<int>, limit: Option<int>)

  /** `filters?.page && filters.page > 0 ? filters.page : 1` */
  function PageNumber(page: Option<int>): (p: nat)
    ensures p >= 1
    ensures page.Some? && page.value > 0 ==> p == page.value
    ensures !(page.Some? && page.value > 0) ==> p == 1
  {
    if page.Some? && page.value > 0 then page.value else 1
  }

  /** `filters?.limit && filters.limit > 0 ? filters.limit : 50` */
  function PageLimit(limit: Option<int>): (l: nat)
    ensures l >= 1
    ensures limit.Some? && limit.value > 0 ==> l == limit.value
    ensures !(limit.Some? && limit.value > 0) ==> l == 50
  {
    if limit.Some? && limit.value > 0 then limit.value else 50
  }

  /** The rows before page `page`: `(page - 1) * limit`. */
  function PageOffset(page: Option<int>, limit: nat): nat {
    var p := PageNumber(page);
    assert p - 1 >= 0;
    (p - 1) * limit
  }

  /** `ORDER BY createdAt DESC LIMIT ? OFFSET ?` with offset (page - 1) * limit. */
  function PageQuery(rows: seq<TicketRow>, f: PagedFilters): seq<TicketRow> {
    var limit := PageLimit(f.limit);
    LimitOffset(TicketsQuery(rows, f.base), limit, PageOffset(f.page, limit))
  }

  /** Page p followed by page p + 1 is the window of twice the size that starts at page p. */
  lemma PagesAdjacent(q: seq<TicketRow>, limit: nat, p: nat)
    requires p >= 1
    ensures LimitOffset(q, limit, (p - 1) * limit) + LimitOffset(q, limit, p * limit)
            == LimitOffset(q, 2 * limit, (p - 1) * limit)
  {
    var a, b, c := LimitOffset(q, limit, (p - 1) * limit), LimitOffset(q, limit, p * limit),
                   LimitOffset(q, 2 * limit, (p - 1) * limit);
    assert |a + b| == |c|;
    forall i | 0 <= i < |c| ensures (a + b)[i] == c[i] {
      if i < |a| {
      } else {
        assert (a + b)[i] == b[i - |a|];
      }
    }
  }

  /**
   * getTicketsLocally: `total` counts every row meeting the filters,
   * whatever the page; the page query runs, but its loop pushes nothing,
   * so `items` is always empty.
   */
  method GetTicketsLocally(db: Database, f: PagedFilters) returns (items: seq<Ticket>, total: nat)
    ensures items == []
    ensures total == |Filter(db.tickets, r => MatchesFilters(f.base, r))|
    ensures total == |TicketsQuery(db.tickets, f.base)|
  {
    OrderByLength(Filter(db.tickets, r => MatchesFilters(f.base, r)), CreatedAtKey, true);
    total := |Filter(db.tickets, r => MatchesFilters(f.base, r))|;
    var rows := PageQuery(db.tickets, f);
    items := [];
    var i := 0;
    while i < |rows|
      invariant 0 <= i <= |rows| && items == []
    {
      i := i + 1;
    }
  }

  /** The page holds at most `limit` rows, each the filtered, ordered row at its offset. */
  lemma PageQueryWindow(rows: seq<TicketRow>, f: PagedFilters)
    ensures var q, limit := TicketsQuery(rows, f.base), PageLimit(f.limit);
      var offset := PageOffset(f.page, limit);
      |PageQuery(rows, f)| <= limit
      && (forall i :: 0 <= i < |PageQuery(rows, f)| ==> PageQuery(rows, f)[i] == q[offset + i])
      && (f.page.None? && f.limit.None? ==> PageQuery(rows, f) == (if |q| <= 50 then q else q[..50]))
  {
    var q := TicketsQuery(rows, f.base);
    if f.page.None? && f.limit.None? {
      if |q| <= 50 { assert q[0..|q|] == q; }
    }
  }

  /** A comment row as the split getters report it; an empty creator becomes the blank triple. */
  function CommentOf(r: CommentRow): (c: Comment)
    ensures c.id == Str(r.id) && c.text == r.text && c.createdAt == r.createdAt
    ensures c.createdBy == (if r.createdBy.Some? then r.createdBy.value else EmptyCreator)
  {
    Comment(Str(r.id), r.text, r.createdAt, if r.createdBy.Some? then r.createdBy.value else EmptyCreator)
  }

  function AttachmentOf(r: AttachmentRow): (a: Attachment)
    ensures a.id == Str(r.id) && a.name == r.name && a.url == r.url && a.kind == r.kind && a.size == r.size
  {
    Attachment(Str(r.id), r.name, r.url, r.kind, r.size)
  }

  /** getCommentsByTicketIdLocally: one comment per matching row, oldest first. */
  method GetCommentsByTicketIdLocally(db: Database, ticketId: string) returns (r: seq<Comment>)
    ensures var q := CommentsQuery(db.comments, ticketId);
      |r| == |q| && forall k :: 0 <= k < |q| ==> r[k] == CommentOf(q[k])
  {
    var rows := CommentsQuery(db.comments, ticketId);
    r := [];
    var i := 0;
    while i < |rows|
      invariant 0 <= i <= |rows| && |r| == i
      invariant forall k :: 0 <= k < i ==> r[k] == CommentOf(rows[k])
    {
      r := r + [CommentOf(rows[i])];
      i := i + 1;
    }
  }

  /** getAttachmentsByTicketIdLocally: one attachment per matching row, in table order. */
  method GetAttachmentsByTicketIdLocally(db: Database, ticketId: string) returns (r: seq<Attachment>)
    ensures var q := AttachmentsQuery(db.attachments, ticketId);
      |r| == |q| && forall k :: 0 <= k < |q| ==> r[k] == AttachmentOf(q[k])
  {
    var rows := AttachmentsQuery(db.attachments, ticketId);
    r := [];
    var i := 0;
    while i < |rows|
      invariant 0 <= i <= |rows| && |r| == i
      invariant forall k :: 0 <= k < i ==> r[k] == AttachmentOf(rows[k])
    {
      r := r + [AttachmentOf(rows[i])];
      i := i + 1;
    }
  }

  /** Every attachment reported for a ticket was filed under it. */
  lemma AttachmentsQueryExact(rows: seq<AttachmentRow>, ticketId: string)
    ensures forall a :: a in AttachmentsQuery(rows, ticketId) <==> a in rows && a.ticketId == ticketId
  {
    var p := (a: AttachmentRow) => a.ticketId == ticketId;
    forall a | a in rows && p(a) ensures a in Filter(rows, p) {
      var k :| 0 <= k < |rows| && rows[k] == a;
    }
    forall a | a in Filter(rows, p) ensures a in rows && p(a) {
      var k :| 0 <= k < |Filter(rows, p)| && Filter(rows, p)[k] == a;
    }
  }

  /**
   * getTicketByIdLocally: null when no row has that id or localId;
   * otherwise the first match, with its comments (oldest first) and
   * attachments read under its id.
   */
  method GetTicketByIdLocally(db: Database, ticketId: string) returns (r: Option<Ticket>)
    ensures r.None? <==> forall t :: t in db.tickets ==> !IdOrLocal(t, ticketId)
    ensures r.Some? ==>
      var row := TicketsById(db.tickets, ticketId)[0];
      var cs, as_ := CommentsQuery(db.comments, row.id), AttachmentsQuery(db.attachments, row.id);
      IdOrLocal(row, ticketId)
      && r.value.id == Str(row.id) && r.value.title == row.title && r.value.status == row.status
      && r.value.createdBy == row.createdBy
      && |r.value.comments| == |cs| && (forall k :: 0 <= k < |cs| ==> r.value.comments[k] == CommentOf(cs[k]))
      && |r.value.attachments| == |as_| && (forall k :: 0 <= k < |as_| ==> r.value.attachments[k] == AttachmentOf(as_[k]))
      && r.value == Ticket(Str(row.id), row.title, row.description, row.category, row.priority, row.status,
                           row.createdAt, row.updatedAt, r.value.comments, r.value.attachments, row.createdBy)
  {
    var hits := TicketsById(db.tickets, ticketId);
    if |hits| == 0 {
      forall t | t in db.tickets ensures !IdOrLocal(t, ticketId) {
        var k :| 0 <= k < |db.tickets| && db.tickets[k] == t;
      }
      return None;
    }
    var row := hits[0];
    var comments := GetCommentsByTicketIdLocally(db, row.id);
    var attachments := GetAttachmentsByTicketIdLocally(db, row.id);
    r := Some(Ticket(Str(row.id), row.title, row.description, row.category, row.priority, row.status,
                     row.createdAt, row.updatedAt, comments, attachments, row.createdBy));
  }

  /** The row bulkUpsertTickets writes: synced, keyed by the ticket's id, `createdBy` defaulting to `{}`. */
  function BulkRow(t: Ticket, now: string): (r: TicketRow)
    ensures r.id == IdString(t.id) && r.localId == IdString(t.id) && r.isSynced == 1
    ensures r.createdBy == Some(if t.createdBy.Some? then t.createdBy.value else Creator(None, None, None))
    ensures r.priority == (if t.priority == "" then "medium" else t.priority)
  {
    NewTicketRow(TicketAsInput(t), IdString(t.id), now)
      .(isSynced := 1, createdBy := Some(if t.createdBy.Some? then t.createdBy.value else Creator(None, None, None)))
  }

  /** The table after replacing the tickets `ts` one after the other. */
  function BulkAll(rows: seq<TicketRow>, ts: seq<Ticket>, now: string): seq<TicketRow>
    decreases |ts|
  {
    if ts == [] then rows else Upsert(BulkAll(rows, ts[..|ts| - 1], now), BulkRow(ts[|ts| - 1], now), TicketKey)
  }

  /**
   * After the bulk write the key stays unique; each ticket that no later
   * ticket shares an id with is in the table as written; and a row of the
   * old table survives when no ticket carries its id.
   */
  lemma {:induction false} BulkAllRows(rows: seq<TicketRow>, ts: seq<Ticket>, now: string)
    requires Unique(rows, TicketKey)
    ensures var r := BulkAll(rows, ts, now);
      Unique(r, TicketKey) && NewestStored(r, ts, now) && SurvivorsKept(rows, r, ts)
    decreases |ts|
  {
    if ts != [] {
      var init := ts[..|ts| - 1];
      BulkAllRows(rows, init, now);
      var prev := BulkAll(rows, init, now);
      UpsertKeys(prev, BulkRow(ts[|ts| - 1], now), TicketKey);
      BulkNewestStep(prev, ts, now);
      BulkSurvivorsStep(rows, prev, ts, now);
    }
  }

  /** Each ticket that no later ticket shares an id with is in `r` as written. */
  ghost predicate NewestStored(r: seq<TicketRow>, ts: seq<Ticket>, now: string) {
    forall k :: 0 <= k < |ts| && (forall m :: k < m < |ts| ==> IdString(ts[m].id) != IdString(ts[k].id))
      ==> BulkRow(ts[k], now) in r
  }

  /** Each row of `rows` whose id no ticket carries is still in `r`. */
  ghost predicate SurvivorsKept(rows: seq<TicketRow>, r: seq<TicketRow>, ts: seq<Ticket>) {
    forall x :: x in rows && (forall m :: 0 <= m < |ts| ==> IdString(ts[m].id) != x.id) ==> x in r
  }

  /** One more write keeps NewestStored. */
  lemma {:induction false} BulkNewestStep(prev: seq<TicketRow>, ts: seq<Ticket>, now: string)
    requires ts != [] && Unique(prev, TicketKey) && NewestStored(prev, ts[..|ts| - 1], now)
    ensures NewestStored(Upsert(prev, BulkRow(ts[|ts| - 1], now), TicketKey), ts, now)
  {
    var init := ts[..|ts| - 1];
    var last := BulkRow(ts[|ts| - 1], now);
    UpsertKeys(prev, last, TicketKey);
    var r := Upsert(prev, last, TicketKey);
    forall k | 0 <= k < |ts| && (forall m :: k < m < |ts| ==> IdString(ts[m].id) != IdString(ts[k].id))
      ensures BulkRow(ts[k], now) in r
    {
      if k < |ts| - 1 {
        assert init[k] == ts[k];
        assert forall m :: k < m < |init| ==> IdString(init[m].id) != IdString(init[k].id) by {
          forall m | k < m < |init| ensures IdString(init[m].id) != IdString(init[k].id) {
            assert init[m] == ts[m];
          }
        }
        assert BulkRow(ts[k], now) in prev;
        assert IdString(ts[|ts| - 1].id) != IdString(ts[k].id);
      } else {
        assert r[|r| - 1] == last;
      }
    }
  }

  /** One more write keeps SurvivorsKept. */
  lemma {:induction false} BulkSurvivorsStep(rows: seq<TicketRow>, prev: seq<TicketRow>, ts: seq<Ticket>, now: string)
    requires ts != [] && Unique(prev, TicketKey) && SurvivorsKept(rows, prev, ts[..|ts| - 1])
    ensures SurvivorsKept(rows, Upsert(prev, BulkRow(ts[|ts| - 1], now), TicketKey), ts)
  {
    var init := ts[..|ts| - 1];
    var last := BulkRow(ts[|ts| - 1], now);
    UpsertKeys(prev, last, TicketKey);
    var r := Upsert(prev, last, TicketKey);
    forall x | x in rows && (forall m :: 0 <= m < |ts| ==> IdString(ts[m].id) != x.id) ensures x in r {
      assert forall m :: 0 <= m < |init| ==> IdString(init[m].id) != x.id by {
        forall m | 0 <= m < |init| ensures IdString(init[m].id) != x.id { assert init[m] == ts[m]; }
      }
      assert IdString(ts[|ts| - 1].id) != x.id;
    }
  }

  /** bulkUpsertTickets: an empty list is a no-op; otherwise each ticket is written in input order. */
  method BulkUpsertTickets(db: Database, ts: seq<Ticket>, env: Env)
    requires db.Valid()
    modifies db`tickets
    ensures db.Valid()
    ensures db.tickets == BulkAll(old(db.tickets), ts, env.nowIso)
  {
    if |ts| == 0 {
      return;
    }
    var i := 0;
    while i < |ts|
      invariant 0 <= i <= |ts|
      invariant db.Valid()
      invariant db.tickets == BulkAll(old(db.tickets), ts[..i], env.nowIso)
    {
      BulkAllStep(old(db.tickets), ts, i, env.nowIso);
      UpsertKeys(db.tickets, BulkRow(ts[i], env.nowIso), TicketKey);
      db.tickets := Upsert(db.tickets, BulkRow(ts[i], env.nowIso), TicketKey);
      i := i + 1;
    }
    assert ts[..i] == ts;
  }

  /** One more ticket written: the table grows by one upsert. */
  lemma {:induction false} BulkAllStep(rows: seq<TicketRow>, ts: seq<Ticket>, i: int, now: string)
    requires 0 <= i < |ts|
    ensures BulkAll(rows, ts[..i + 1], now) == Upsert(BulkAll(rows, ts[..i], now), BulkRow(ts[i], now), TicketKey)
  {
    assert ts[..i + 1][..i] == ts[..i];
  }

  /** The table after saveTicketLocally on each ticket in turn, each call with its own clock and token. */
  function SaveAll(rows: seq<TicketRow>, ts: seq<Ticket>, envs: seq<Env>): seq<TicketRow>
    requires |envs| == |ts|
    decreases |ts|
  {
    if ts == [] then rows
    else
      var n := |ts| - 1;
      var input := TicketAsInput(ts[n]);
      var key := if IdTruthy(input.id) then IdString(input.id.value) else LocalId(envs[n]);
      Upsert(SaveAll(rows, ts[..n], envs[..n]), NewTicketRow(input, key, envs[n].nowIso), TicketKey)
  }

  /** One more ticket saved: the table grows by one upsert. */
  lemma SaveAllStep(rows: seq<TicketRow>, ts: seq<Ticket>, envs: seq<Env>, i: int)
    requires |envs| == |ts| && 0 <= i < |ts|
    ensures var input := TicketAsInput(ts[i]);
      var key := if IdTruthy(input.id) then IdString(input.id.value) else LocalId(envs[i]);
      SaveAll(rows, ts[..i + 1], envs[..i + 1])
      == Upsert(SaveAll(rows, ts[..i], envs[..i]), NewTicketRow(input, key, envs[i].nowIso), TicketKey)
  {
    assert ts[..i + 1][..i] == ts[..i];
    assert envs[..i + 1][..i] == envs[..i];
  }

  /**
   * upsertTicketsLocally: each ticket goes through saveTicketLocally in
   * input order. The `_isSynced: true` it adds is not read there, so each
   * row is marked synced exactly when the ticket's id is truthy.
   */
  method UpsertTicketsLocally(db: Database, ts: seq<Ticket>, envs: seq<Env>)
    requires db.Valid() && |envs| == |ts|
    modifies db`tickets
    ensures db.Valid()
    ensures db.tickets == SaveAll(old(db.tickets), ts, envs)
  {
    if |ts| == 0 {
      return;
    }
    var i := 0;
    while i < |ts|
      invariant 0 <= i <= |ts|
      invariant db.Valid()
      invariant db.tickets == SaveAll(old(db.tickets), ts[..i], envs[..i])
    {
      var _ := SaveTicketLocally(db, TicketAsInput(ts[i]), envs[i]);
      SaveAllStep(old(db.tickets), ts, envs, i);
      i := i + 1;
    }
    assert ts[..i] == ts && envs[..i] == envs;
  }

  /** The last row upsertTicketsLocally writes is synced exactly when its ticket's id is truthy. */
  lemma UpsertedSyncFlag(rows: seq<TicketRow>, ts: seq<Ticket>, envs: seq<Env>)
    requires |envs| == |ts| && ts != []
    ensures var r := SaveAll(rows, ts, envs);
      r != [] && r[|r| - 1].isSynced == (if IdTruthy(Some(ts[|ts| - 1].id)) then 1 else 0)
  {
  }

  /** saveAttachmentLocally: the legacy row, keyed by `String(attachment.id)` or a fresh local id. */
  method SaveAttachmentLocally(db: Database, a: AttachmentInput, env: Env) returns (key: string)
    requires db.Valid()
    modifies db`attachments
    ensures db.Valid()
    ensures key == (if IdTruthy(a.id) then IdString(a.id.value) else LocalId(env))
    ensures db.attachments == Upsert(old(db.attachments), NewAttachmentRow(a, key), AttachmentKey)
  {
    key := if IdTruthy(a.id) then IdString(a.id.value) else LocalId(env);
    var row := NewAttachmentRow(a, key);
    UpsertKeys(db.attachments, row, AttachmentKey);
    db.attachments := Upsert(db.attachments, row, AttachmentKey);
  }

  // ---------------------------------------------------------------------
  // Newer-schema statements

  /** `WHERE id = ? OR server_id = ?` */
  predicate IdOrServer(r: DbTicket, ticketId: int) {
    r.id == ticketId || r.serverId == Some(ticketId)
  }

  /** The SET list of the newer updateTicketLocally applied to one row. */
  function ApplyDbUpdate(r: DbTicket, u: Patch, now: string): (r': DbTicket)
    ensures r'.id == r.id && r'.serverId == r.serverId && r'.createdAt == r.createdAt
    ensures r'.syncStatus == Pending && r'.updatedAt == now
    ensures r'.title == u.title.GetOr(r.title) && r'.description == u.description.GetOr(r.description)
    ensures r'.category == u.category.GetOr(r.category) && r'.priority == u.priority.GetOr(r.priority)
    ensures r'.status == u.status.GetOr(r.status)
    ensures u.createdBy.None? ==> r'.createdById == r.createdById && r'.createdByName == r.createdByName
                                  && r'.createdByEmail == r.createdByEmail
    ensures u.createdBy.Some? ==> r'.createdById == OrNull(u.createdBy.value.id)
                                  && r'.createdByName == OrNull(u.createdBy.value.name)
                                  && r'.createdByEmail == OrNull(u.createdBy.value.email)
  {
    var base := r.(title := u.title.GetOr(r.title), description := u.description.GetOr(r.description),
                   category := u.category.GetOr(r.category), priority := u.priority.GetOr(r.priority),
                   status := u.status.GetOr(r.status), updatedAt := now, syncStatus := Pending);
    if u.createdBy.Some? then
      base.(createdById := OrNull(u.createdBy.value.id), createdByName := OrNull(u.createdBy.value.name),
            createdByEmail := OrNull(u.createdBy.value.email))
    else base
  }

  /** updateTicketLocally: every row whose id or server_id matches is updated and left pending; no other row changes. */
  method UpdateTicketLocally(db: Database, ticketId: int, u: Patch, env: Env)
    requires db.Valid()
    modifies db`dbTickets
    ensures db.Valid()
    ensures db.dbTickets == MapWhere(old(db.dbTickets), r => IdOrServer(r, ticketId), r => ApplyDbUpdate(r, u, env.nowIso))
  {
    MapWhereKeepsKeys(db.dbTickets, r => IdOrServer(r, ticketId), r => ApplyDbUpdate(r, u, env.nowIso), DbTicketKey);
    db.dbTickets := MapWhere(db.dbTickets, r => IdOrServer(r, ticketId), r => ApplyDbUpdate(r, u, env.nowIso));
  }

  /** `SELECT * FROM Tickets WHERE sync_status = 'pending'` */
  function PendingTickets(rows: seq<DbTicket>): seq<DbTicket> {
    Filter(rows, (r: DbTicket) => r.syncStatus == Pending)
  }

  function MarkedTicket(r: DbTicket, serverId: int): DbTicket {
    r.(serverId := Some(serverId), syncStatus := Synced)
  }

  /** markTicketAsSynced: server_id := serverId and sync_status := synced on the row with that id. */
  method MarkTicketAsSynced(db: Database, id: int, serverId: int)
    requires db.Valid()
    modifies db`dbTickets
    ensures db.Valid()
    ensures db.dbTickets == MapWhere(old(db.dbTickets), (r: DbTicket) => r.id == id, r => MarkedTicket(r, serverId))
  {
    MapWhereKeepsKeys(db.dbTickets, (r: DbTicket) => r.id == id, r => MarkedTicket(r, serverId), DbTicketKey);
    db.dbTickets := MapWhere(db.dbTickets, (r: DbTicket) => r.id == id, r => MarkedTicket(r, serverId));
  }

  /**
   * After markTicketAsSynced the row keeps its local id, gets the server
   * id, and no longer counts as pending; every other row is as it was.
   */
  lemma MarkedTicketLeavesPending(rows: seq<DbTicket>, id: int, serverId: int)
    ensures var after := MapWhere(rows, (r: DbTicket) => r.id == id, r => MarkedTicket(r, serverId));
      (forall r :: r in PendingTickets(after) ==> r.id != id)
      && (forall i :: 0 <= i < |rows| && rows[i].id == id ==> after[i].id == id && after[i].serverId == Some(serverId))
      && (forall i :: 0 <= i < |rows| && rows[i].id != id ==> after[i] == rows[i])
  {
    var after := MapWhere(rows, (r: DbTicket) => r.id == id, r => MarkedTicket(r, serverId));
    forall r | r in PendingTickets(after) ensures r.id != id {
      var k :| 0 <= k < |PendingTickets(after)| && PendingTickets(after)[k] == r;
      var j :| 0 <= j < |after| && after[j] == r;
    }
  }

  /** getUnsyncedTickets: every pending row, one record each, in table order. */
  method GetUnsyncedTickets(db: Database) returns (r: seq<DbTicket>)
    ensures r == PendingTickets(db.dbTickets)
    ensures forall t :: t in r <==> t in db.dbTickets && t.syncStatus == Pending
  {
    var rows := PendingTickets(db.dbTickets);
    r := [];
    var i := 0;
    while i < |rows|
      invariant 0 <= i <= |rows| && r == rows[..i]
    {
      r := r + [rows[i]];
      i := i + 1;
    }
    assert rows[..i] == rows;
    forall t | t in db.dbTickets && t.syncStatus == Pending ensures t in r {
      var k :| 0 <= k < |db.dbTickets| && db.dbTickets[k] == t;
    }
  }

  /** The comment object handed to the newer saveCommentLocally. */
  datatype NewComment = NewComment(ticketId: JsId, text: Option<string>, createdAt: Option<string>, createdBy: Option<Creator>)

  /** The row the plain INSERT adds: pending, with no server id, stamped now. */
  function NewCommentRow(c: NewComment, id: int, now: string): (r: DbComment)
    ensures r.id == id && r.ticketId == IdNumber(c.ticketId) && r.syncStatus == Pending && r.serverId.None?
    ensures r.createdAt == OrElse(c.createdAt, now) && r.createdAtLocal == Some(now)
    ensures r.createdById == (if c.createdBy.Some? then OrNull(c.createdBy.value.id) else None)
  {
    var who := if c.createdBy.Some? then c.createdBy.value else Creator(None, None, None);
    DbComment(id, IdNumber(c.ticketId), OrElse(c.text, ""), OrNull(who.id), OrNull(who.name), OrNull(who.email),
              OrElse(c.createdAt, now), Pending, None, Some(now))
  }

  /**
   * saveCommentLocally: always a new row (a plain INSERT). Its id is the
   * rowid an assumed `id INTEGER PRIMARY KEY` column hands out, one more
   * than the largest id in the table (1 when it is empty), and it is the
   * insertId returned.
   */
  method SaveCommentLocally(db: Database, c: NewComment, env: Env) returns (insertId: int)
    requires db.Valid()
    modifies db`dbComments
    ensures db.Valid()
    ensures insertId == MaxCommentId(old(db.dbComments)) + 1
    ensures forall i :: 0 <= i < |old(db.dbComments)| ==> old(db.dbComments)[i].id < insertId
    ensures db.dbComments == old(db.dbComments) + [NewCommentRow(c, insertId, env.nowIso)]
  {
    insertId := MaxCommentId(db.dbComments) + 1;
    var row := NewCommentRow(c, insertId, env.nowIso);
    UniqueAppend(db.dbComments, row, DbCommentKey);
    db.dbComments := db.dbComments + [row];
  }

  /** A plain INSERT keeps every old row and never reuses an id. */
  lemma {:induction false} SavedCommentIsFresh(rows: seq<DbComment>, c: NewComment, now: string)
    requires Unique(rows, DbCommentKey)
    ensures MaxCommentId(rows) + 1 >= 1
    ensures Unique(rows + [NewCommentRow(c, MaxCommentId(rows) + 1, now)], DbCommentKey)
    ensures (rows + [NewCommentRow(c, MaxCommentId(rows) + 1, now)])[..|rows|] == rows
    ensures PendingComments(rows + [NewCommentRow(c, MaxCommentId(rows) + 1, now)])
      == PendingComments(rows) + [NewCommentRow(c, MaxCommentId(rows) + 1, now)]
  {
    var row := NewCommentRow(c, MaxCommentId(rows) + 1, now);
    FreshIdKeepsUnique(rows, row);
    PendingSnoc(rows, row);
    SnocPrefix(rows, row);
  }

  lemma {:induction false} SnocPrefix(rows: seq<DbComment>, row: DbComment)
    ensures (rows + [row])[..|rows|] == rows
  {
  }

  lemma {:induction false} FreshIdKeepsUnique(rows: seq<DbComment>, row: DbComment)
    requires Unique(rows, DbCommentKey) && row.id > MaxCommentId(rows)
    ensures Unique(rows + [row], DbCommentKey)
  {
    assert forall i :: 0 <= i < |rows| ==> DbCommentKey(rows[i]) != DbCommentKey(row);
    UniqueAppend(rows, row, DbCommentKey);
  }

  lemma {:induction false} PendingSnoc(rows: seq<DbComment>, row: DbComment)
    requires IsPendingComment(row)
    ensures PendingComments(rows + [row]) == PendingComments(rows) + [row]
  {
    FilterSnoc(rows, row, IsPendingComment);
  }

  predicate IsPendingComment(r: DbComment) {
    r.syncStatus == Pending
  }

  /** `SELECT * FROM TicketComments WHERE sync_status = 'pending'`; the owning ticket is not consulted. */
  function PendingComments(rows: seq<DbComment>): seq<DbComment> {
    Filter(rows, IsPendingComment)
  }

  /** getUnsyncedComments: every pending comment, one record each, in table order. */
  method GetUnsyncedComments(db: Database) returns (r: seq<DbComment>)
    ensures r == PendingComments(db.dbComments)
    ensures forall c :: c in r <==> c in db.dbComments && c.syncStatus == Pending
  {
    var rows := PendingComments(db.dbComments);
    r := [];
    var i := 0;
    while i < |rows|
      invariant 0 <= i <= |rows| && r == rows[..i]
    {
      r := r + [rows[i]];
      i := i + 1;
    }
    assert rows[..i] == rows;
    forall t | t in db.dbComments && t.syncStatus == Pending ensures t in r {
      var k :| 0 <= k < |db.dbComments| && db.dbComments[k] == t;
    }
  }

  function MarkedComment(r: DbComment, serverId: int): DbComment {
    r.(serverId := Some(serverId), syncStatus := Synced)
  }

  /** markCommentAsSynced: server_id := serverId and sync_status := synced on the comment with that id. */
  method MarkCommentAsSynced(db: Database, id: int, serverId: int)
    requires db.Valid()
    modifies db`dbComments
    ensures db.Valid()
    ensures db.dbComments == MapWhere(old(db.dbComments), (r: DbComment) => r.id == id, r => MarkedComment(r, serverId))
  {
    MapWhereKeepsKeys(db.dbComments, (r: DbComment) => r.id == id, r => MarkedComment(r, serverId), DbCommentKey);
    db.dbComments := MapWhere(db.dbComments, (r: DbComment) => r.id == id, r => MarkedComment(r, serverId));
  }

  /** After markCommentAsSynced that comment is no longer pending, and no other row changed. */
  lemma MarkedCommentLeavesPending(rows: seq<DbComment>, id: int, serverId: int)
    ensures var after := MapWhere(rows, (r: DbComment) => r.id == id, r => MarkedComment(r, serverId));
      (forall r :: r in PendingComments(after) ==> r.id != id)
      && (forall i :: 0 <= i < |rows| && rows[i].id != id ==> after[i] == rows[i])
  {
    var after := MapWhere(rows, (r: DbComment) => r.id == id, r => MarkedComment(r, serverId));
    forall r | r in PendingComments(after) ensures r.id != id {
      var k :| 0 <= k < |PendingComments(after)| && PendingComments(after)[k] == r;
      var j :| 0 <= j < |after| && after[j] == r;
    }
  }

  /** A PendingTicketActions row as getPendingActions reports it. */
  datatype ActionRecord = ActionRecord(
    id: int, actionType: string, ticketId: Option<int>, data: Option<Payload>, status: string,
    retryCount: int, errorMessage: Option<string>, createdAt: Option<string>, lastRetryAt: Option<string>)

  /** The defaults getPendingActions applies: a missing retry_count reads as 0. */
  function ActionRecordOf(r: DbAction): (a: ActionRecord)
    ensures a.id == r.id && a.retryCount == (if r.retryCount.Some? then r.retryCount.value else 0)
    ensures a.ticketId == r.ticketId && a.data == r.data && a.errorMessage == r.errorMessage
  {
    ActionRecord(r.id, r.actionType, r.ticketId, r.data, r.status, r.retryCount.GetOr(0),
                 r.errorMessage, r.createdAt, r.lastRetryAt)
  }

  /** `created_at` as ORDER BY sees it; NULL sorts before every text. */
  function ActionCreatedAt(r: DbAction): string { r.createdAt.GetOr("") }

  /** `SELECT * FROM PendingTicketActions ORDER BY created_at ASC` */
  function ActionsQuery(rows: seq<DbAction>): seq<DbAction> {
    OrderBy(rows, ActionCreatedAt, false)
  }

  /** The ordered read returns every row once, oldest first. */
  lemma ActionsQueryAll(rows: seq<DbAction>)
    ensures multiset(ActionsQuery(rows)) == multiset(rows)
    ensures SortedBy(ActionsQuery(rows), ActionCreatedAt, false)
  {
    OrderByPermutation(rows, ActionCreatedAt, false);
    OrderBySorted(rows, ActionCreatedAt, false);
  }

  /** getPendingActions: one record per row, in created_at order. */
  method GetPendingActions(db: Database) returns (r: seq<ActionRecord>)
    ensures var q := ActionsQuery(db.dbActions);
      |r| == |q| && forall k :: 0 <= k < |q| ==> r[k] == ActionRecordOf(q[k])
  {
    var rows := ActionsQuery(db.dbActions);
    r := [];
    var i := 0;
    while i < |rows|
      invariant 0 <= i <= |rows| && |r| == i
      invariant forall k :: 0 <= k < i ==> r[k] == ActionRecordOf(rows[k])
    {
      r := r + [ActionRecordOf(rows[i])];
      i := i + 1;
    }
  }
}
