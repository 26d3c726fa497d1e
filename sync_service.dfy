/**
 * The SQL-backed sync pass (services/SyncService.ts): push every unsynced
 * ticket, then every unsynced comment, then replay the `pending_actions`
 * queue, then drop actions that failed five times; plus the connectivity
 * flag that starts a pass and the listener list that hears about it.
 *
 * Each stage is a method whose loop walks the snapshot it read, proved
 * against a function that threads the tables and the remaining server
 * answers through that snapshot.
 */
module SyncService {
  import opened Wrappers
  import opened Text
  import opened JsValues
  import opened Query
  import opened Schema
  import opened LegacyStore
  import opened OfflineQueue
  import opened Remote

  /** The tables a pass touches, and the server answers still to come. */
  datatype PassState = PassState(
    tickets: seq<TicketRow>, comments: seq<CommentRow>, queue: seq<QueuedAction>,
    script: seq<Result<Reply>>)

  /** The message processPendingActions records: the API rejects with plain strings, never an Error. */
  const UnknownError := "Unknown error"

  /** The threshold syncPendingData passes to cleanupFailedActions. */
  const PassMaxAttempts := 5

  // ---------------------------------------------------------------------
  // Stage 1: unsynced tickets

  /** A 'local_' localId marks a ticket the server has not seen. */
  predicate IsLocal(v: TicketView) {
    StartsWith(v.localId, "local_")
  }

  /** The request syncTickets sends for one ticket: create for a local one, update otherwise. */
  function TicketCall(v: TicketView): ApiCall {
    if IsLocal(v) then CreateCall(Patch(Some(v.title), Some(v.description), Some(v.category), Some(v.priority), None, None))
    else UpdateTicketCall(v.id, Patch(Some(v.title), Some(v.description), Some(v.category), Some(v.priority), Some(v.status), None))
  }

  /** The table after one ticket's answer; a rejected request or a failed mark leaves it as it was. */
  function TicketAfter(rows: seq<TicketRow>, v: TicketView, reply: Result<Reply>): seq<TicketRow> {
    if reply.Err? then rows
    else if IsLocal(v) then MarkTickets(rows, v.localId, IdString(ReplyId(reply.value))).GetOr(rows)
    else MarkTickets(rows, v.id, v.id).GetOr(rows)
  }

  /** syncTickets over a snapshot: the ticket table and the answers left. */
  function TicketsRun(rows: seq<TicketRow>, views: seq<TicketView>, script: seq<Result<Reply>>)
    : (seq<TicketRow>, seq<Result<Reply>>)
    decreases |views|
  {
    if views == [] then (rows, script)
    else
      var n := Next(script);
      TicketsRun(TicketAfter(rows, views[0], n.0), views[1..], n.1)
  }

  function TicketCalls(views: seq<TicketView>): seq<ApiCall> {
    seq(|views|, i requires 0 <= i < |views| => TicketCall(views[i]))
  }

  /** One turn of syncTickets: the request, then the mark when it succeeded. */
  method SyncTicket(db: Database, api: Api, v: TicketView)
    requires db.Valid()
    modifies db`tickets, api
    ensures db.Valid()
    ensures var n := Next(old(api.script)); db.tickets == TicketAfter(old(db.tickets), v, n.0) && api.script == n.1
    ensures api.calls == old(api.calls) + [TicketCall(v)]
  {
    var reply := api.Call(TicketCall(v));
    if reply.Ok? {
      var res;
      if IsLocal(v) {
        res := MarkTicketAsSynced(db, v.localId, IdString(ReplyId(reply.value)));
      } else {
        res := MarkTicketAsSynced(db, v.id, v.id);
      }
    }
  }

  /** The for-of loop of syncTickets over the tickets it read. */
  method SyncTicketList(db: Database, api: Api, views: seq<TicketView>)
    requires db.Valid()
    modifies db`tickets, api
    ensures db.Valid()
    ensures (db.tickets, api.script) == TicketsRun(old(db.tickets), views, old(api.script))
    ensures api.calls == old(api.calls) + TicketCalls(views)
  {
    var i := 0;
    while i < |views|
      invariant 0 <= i <= |views|
      invariant db.Valid()
      invariant TicketsRun(db.tickets, views[i..], api.script) == TicketsRun(old(db.tickets), views, old(api.script))
      invariant api.calls == old(api.calls) + TicketCalls(views[..i])
    {
      SyncTicket(db, api, views[i]);
      assert views[i..][1..] == views[i + 1..];
      assert TicketCalls(views[..i + 1]) == TicketCalls(views[..i]) + [TicketCall(views[i])];
      i := i + 1;
    }
    assert views[..i] == views;
  }

  /** syncTickets: one request per unsynced ticket, in the order read; a failure moves on to the next. */
  method SyncTickets(db: Database, api: Api)
    requires db.Valid()
    modifies db`tickets, api
    ensures db.Valid()
    ensures (db.tickets, api.script) == TicketsRun(old(db.tickets), UnsyncedTicketViews(old(db.tickets)), old(api.script))
    ensures api.calls == old(api.calls) + TicketCalls(UnsyncedTicketViews(old(db.tickets)))
  {
    var views := GetUnsyncedTickets(db);
    if |views| == 0 {
      assert TicketCalls(views) == [];
      return;
    }
    SyncTicketList(db, api, views);
  }

  // ---------------------------------------------------------------------
  // Stage 2: unsynced comments

  /** addComment(comment.ticketId, comment.text): the stored ticket id, whatever it is. */
  function CommentCall(v: CommentView): ApiCall {
    AddCommentCall(v.ticketId, TextBody(v.text))
  }

  function CommentAfter(rows: seq<CommentRow>, v: CommentView, reply: Result<Reply>): seq<CommentRow> {
    if reply.Err? then rows else MarkComments(rows, v.localId, IdString(ReplyId(reply.value))).GetOr(rows)
  }

  /** syncComments over a snapshot: the comment table and the answers left. */
  function CommentsRun(rows: seq<CommentRow>, views: seq<CommentView>, script: seq<Result<Reply>>)
    : (seq<CommentRow>, seq<Result<Reply>>)
    decreases |views|
  {
    if views == [] then (rows, script)
    else
      var n := Next(script);
      CommentsRun(CommentAfter(rows, views[0], n.0), views[1..], n.1)
  }

  function CommentCalls(views: seq<CommentView>): seq<ApiCall> {
    seq(|views|, i requires 0 <= i < |views| => CommentCall(views[i]))
  }

  /** One turn of syncComments: the request, then the mark when it succeeded. */
  method SyncComment(db: Database, api: Api, v: CommentView)
    requires db.Valid()
    modifies db`comments, api
    ensures db.Valid()
    ensures var n := Next(old(api.script)); db.comments == CommentAfter(old(db.comments), v, n.0) && api.script == n.1
    ensures api.calls == old(api.calls) + [CommentCall(v)]
  {
    var reply := api.Call(CommentCall(v));
    if reply.Ok? {
      var res := MarkCommentAsSynced(db, v.localId, IdString(ReplyId(reply.value)));
    }
  }

  /** The for-of loop of syncComments over the comments it read. */
  method SyncCommentList(db: Database, api: Api, views: seq<CommentView>)
    requires db.Valid()
    modifies db`comments, api
    ensures db.Valid()
    ensures (db.comments, api.script) == CommentsRun(old(db.comments), views, old(api.script))
    ensures api.calls == old(api.calls) + CommentCalls(views)
  {
    var i := 0;
    while i < |views|
      invariant 0 <= i <= |views|
      invariant db.Valid()
      invariant CommentsRun(db.comments, views[i..], api.script) == CommentsRun(old(db.comments), views, old(api.script))
      invariant api.calls == old(api.calls) + CommentCalls(views[..i])
    {
      SyncComment(db, api, views[i]);
      assert views[i..][1..] == views[i + 1..];
      assert CommentCalls(views[..i + 1]) == CommentCalls(views[..i]) + [CommentCall(views[i])];
      i := i + 1;
    }
    assert views[..i] == views;
  }

  /** syncComments: one request per unsynced comment, in the order read; a failure moves on to the next. */
  method SyncComments(db: Database, api: Api)
    requires db.Valid()
    modifies db`comments, api
    ensures db.Valid()
    ensures (db.comments, api.script) == CommentsRun(old(db.comments), UnsyncedCommentViews(old(db.comments)), old(api.script))
    ensures api.calls == old(api.calls) + CommentCalls(UnsyncedCommentViews(old(db.comments)))
  {
    var views := GetUnsyncedComments(db);
    if |views| == 0 {
      assert CommentCalls(views) == [];
      return;
    }
    SyncCommentList(db, api, views);
  }

  // ---------------------------------------------------------------------
  // Stage 3: the pending_actions queue

  /** The queued actions processAction sends a request for; the others do nothing and succeed. */
  predicate Sends(a: QueuedAction) {
    (a.entityType == TicketEntity && (a.kind == Create || a.kind == Update))
    || (a.entityType == CommentEntity && a.kind == Create)
  }

  /** The request processAction sends for an action of one of those kinds. */
  function ActionCall(a: QueuedAction): ApiCall
    requires Sends(a)
  {
    if a.entityType == TicketEntity && a.kind == Create then CreateCall(a.data.fields)
    else if a.entityType == TicketEntity then UpdateTicketCall(a.entityId, a.data.fields)
    else AddCommentCall(Interpolate(a.data.ticketId), TextBody(a.data.text.GetOr("")))
  }

  /** The tables after processAction got `reply`; None when it throws. */
  function Processed(s: PassState, a: QueuedAction, reply: Result<Reply>): Option<PassState>
    requires Sends(a)
  {
    if reply.Err? then None
    else if a.entityType == TicketEntity then
      var serverId := if a.kind == Create then IdString(ReplyId(reply.value)) else a.entityId;
      match MarkTickets(s.tickets, a.entityId, serverId)
      case None => None
      case Some(t) => Some(s.(tickets := t))
    else
      match MarkComments(s.comments, a.entityId, IdString(ReplyId(reply.value)))
      case None => None
      case Some(c) => Some(s.(comments := c))
  }

  /** One turn of processPendingActions: remove on success, count the attempt on failure. */
  function ActionAfter(s: PassState, a: QueuedAction): PassState {
    if !Sends(a) then s.(queue := WithoutAction(s.queue, a.id))
    else
      var n := Next(s.script);
      var p := Processed(s.(script := n.1), a, n.0);
      if p.Some? then p.value.(queue := WithoutAction(p.value.queue, a.id))
      else s.(script := n.1, queue := AttemptRecorded(s.queue, a.id, Some(UnknownError)))
  }

  function ActionsRun(s: PassState, acts: seq<QueuedAction>): PassState
    decreases |acts|
  {
    if acts == [] then s else ActionsRun(ActionAfter(s, acts[0]), acts[1..])
  }

  function ActionCalls(acts: seq<QueuedAction>): seq<ApiCall> {
    if acts == [] then []
    else
      var a := acts[|acts| - 1];
      ActionCalls(acts[..|acts| - 1]) + (if Sends(a) then [ActionCall(a)] else [])
  }

  /** processAction: sends the request an action calls for and marks the record it names. */
  method ProcessAction(db: Database, api: Api, a: QueuedAction) returns (ok: bool)
    requires db.Valid()
    modifies db`tickets, db`comments, api
    ensures db.Valid()
    ensures !Sends(a) ==> ok && db.tickets == old(db.tickets) && db.comments == old(db.comments)
                          && api.calls == old(api.calls) && api.script == old(api.script)
    ensures Sends(a) ==>
      var n := Next(old(api.script));
      var p := Processed(PassState(old(db.tickets), old(db.comments), db.pendingActions, n.1), a, n.0);
      api.calls == old(api.calls) + [ActionCall(a)] && api.script == n.1 && ok == p.Some?
      && (ok ==> db.tickets == p.value.tickets && db.comments == p.value.comments)
      && (!ok ==> db.tickets == old(db.tickets) && db.comments == old(db.comments))
  {
    if !Sends(a) {
      return true;
    }
    var reply := api.Call(ActionCall(a));
    if reply.Err? {
      return false;
    }
    var res;
    if a.entityType == TicketEntity {
      var serverId := if a.kind == Create then IdString(ReplyId(reply.value)) else a.entityId;
      res := MarkTicketAsSynced(db, a.entityId, serverId);
    } else {
      res := MarkCommentAsSynced(db, a.entityId, IdString(ReplyId(reply.value)));
    }
    ok := res.Pass?;
  }

  /** One turn of processPendingActions, tied to its function. */
  method ProcessOne(db: Database, api: Api, a: QueuedAction)
    requires db.Valid()
    modifies db`tickets, db`comments, db`pendingActions, api
    ensures db.Valid()
    ensures PassState(db.tickets, db.comments, db.pendingActions, api.script)
            == ActionAfter(PassState(old(db.tickets), old(db.comments), old(db.pendingActions), old(api.script)), a)
    ensures api.calls == old(api.calls) + (if Sends(a) then [ActionCall(a)] else [])
  {
    var ok := ProcessAction(db, api, a);
    if ok {
      RemovePendingAction(db, a.id);
    } else {
      UpdatePendingActionAttempt(db, a.id, Some(UnknownError));
    }
  }

  /** The for-of loop of processPendingActions over the actions it read. */
  method ProcessActionList(db: Database, api: Api, acts: seq<QueuedAction>)
    requires db.Valid()
    modifies db`tickets, db`comments, db`pendingActions, api
    ensures db.Valid()
    ensures PassState(db.tickets, db.comments, db.pendingActions, api.script)
            == ActionsRun(PassState(old(db.tickets), old(db.comments), old(db.pendingActions), old(api.script)), acts)
    ensures api.calls == old(api.calls) + ActionCalls(acts)
  {
    var i := 0;
    while i < |acts|
      invariant 0 <= i <= |acts|
      invariant db.Valid()
      invariant ActionsRun(PassState(db.tickets, db.comments, db.pendingActions, api.script), acts[i..])
                == ActionsRun(PassState(old(db.tickets), old(db.comments), old(db.pendingActions), old(api.script)), acts)
      invariant api.calls == old(api.calls) + ActionCalls(acts[..i])
    {
      ProcessOne(db, api, acts[i]);
      assert acts[i..][1..] == acts[i + 1..];
      assert acts[..i + 1][..i] == acts[..i];
      i := i + 1;
    }
    assert acts[..i] == acts;
  }

  /** processPendingActions: every action read, oldest first; the queue loses the successes. */
  method ProcessPendingActions(db: Database, api: Api)
    requires db.Valid()
    modifies db`tickets, db`comments, db`pendingActions, api
    ensures db.Valid()
    ensures PassState(db.tickets, db.comments, db.pendingActions, api.script)
            == ActionsRun(PassState(old(db.tickets), old(db.comments), old(db.pendingActions), old(api.script)),
                          QueueOrder(old(db.pendingActions)))
    ensures api.calls == old(api.calls) + ActionCalls(QueueOrder(old(db.pendingActions)))
  {
    var acts := GetPendingActions(db);
    if |acts| == 0 {
      return;
    }
    ProcessActionList(db, api, acts);
  }

  // ---------------------------------------------------------------------
  // The whole pass

  /** The ticket stage on a whole state. */
  function TicketsStage(s: PassState): PassState {
    var t := TicketsRun(s.tickets, UnsyncedTicketViews(s.tickets), s.script);
    s.(tickets := t.0, script := t.1)
  }

  /** The comment stage on a whole state. */
  function CommentsStage(s: PassState): PassState {
    var c := CommentsRun(s.comments, UnsyncedCommentViews(s.comments), s.script);
    s.(comments := c.0, script := c.1)
  }

  /** The queue stage on a whole state: the queue as read at its start, oldest first. */
  function ActionsStage(s: PassState): PassState {
    ActionsRun(s, QueueOrder(s.queue))
  }

  /** cleanupFailedActions(5) on a whole state. */
  function CleanupStage(s: PassState): PassState {
    s.(queue := Survivors(s.queue, PassMaxAttempts))
  }

  /** What one pass leaves behind: the four stages in order. */
  function PassRun(s: PassState): PassState {
    CleanupStage(ActionsStage(CommentsStage(TicketsStage(s))))
  }

  /** The requests one pass sends, which depend on the tables alone and not on any answer. */
  function PassCalls(s: PassState): seq<ApiCall> {
    TicketCalls(UnsyncedTicketViews(s.tickets)) + CommentCalls(UnsyncedCommentViews(s.comments))
    + ActionCalls(QueueOrder(s.queue))
  }

  /** Stages 1 and 2 of syncPendingData: the unsynced records. */
  method PushRecords(db: Database, api: Api)
    requires db.Valid()
    modifies db`tickets, db`comments, api
    ensures db.Valid()
    ensures PassState(db.tickets, db.comments, db.pendingActions, api.script)
            == CommentsStage(TicketsStage(PassState(old(db.tickets), old(db.comments), old(db.pendingActions), old(api.script))))
    ensures api.calls == old(api.calls) + TicketCalls(UnsyncedTicketViews(old(db.tickets)))
                                        + CommentCalls(UnsyncedCommentViews(old(db.comments)))
  {
    SyncTickets(db, api);
    SyncComments(db, api);
  }

  /** Stages 3 and 4 of syncPendingData: the queue, then the cleanup. */
  method ReplayQueue(db: Database, api: Api)
    requires db.Valid()
    modifies db`tickets, db`comments, db`pendingActions, api
    ensures db.Valid()
    ensures PassState(db.tickets, db.comments, db.pendingActions, api.script)
            == CleanupStage(ActionsStage(PassState(old(db.tickets), old(db.comments), old(db.pendingActions), old(api.script))))
    ensures api.calls == old(api.calls) + ActionCalls(QueueOrder(old(db.pendingActions)))
  {
    ProcessPendingActions(db, api);
    var deleted := CleanupFailedActions(db, PassMaxAttempts);
  }

  /** The requests of a pass, appended to a log, are the three stages' requests appended in turn. */
  lemma PassCallsInOrder(log: seq<ApiCall>, s: PassState)
    ensures log + PassCalls(s)
            == log + TicketCalls(UnsyncedTicketViews(s.tickets)) + CommentCalls(UnsyncedCommentViews(s.comments))
               + ActionCalls(QueueOrder(s.queue))
  {
  }

  /** The body of syncPendingData's try block: the four stages in order. */
  method RunStages(db: Database, api: Api)
    requires db.Valid()
    modifies db`tickets, db`comments, db`pendingActions, api
    ensures db.Valid()
    ensures PassState(db.tickets, db.comments, db.pendingActions, api.script)
            == PassRun(PassState(old(db.tickets), old(db.comments), old(db.pendingActions), old(api.script)))
    ensures api.calls == old(api.calls) + PassCalls(PassState(old(db.tickets), old(db.comments), old(db.pendingActions), old(api.script)))
  {
    PushRecords(db, api);
    ReplayQueue(db, api);
    PassCallsInOrder(old(api.calls), PassState(old(db.tickets), old(db.comments), old(db.pendingActions), old(api.script)));
  }

  /**
   * The status handed to every listener: the two flags, the queue length
   * and, in a broadcast, the ISO text of the clock when it was made.
   */
  datatype StatusReport = StatusReport(isSyncing: bool, isOnline: bool, pendingCount: nat, lastSync: Option<string>)

  /** `wasOffline && isOnline`: the connection came back. */
  predicate Reconnects(wasOnline: bool, connected: bool) {
    !wasOnline && connected
  }

  /** Two reports of a pass followed by one more broadcast are the three reports in that order. */
  lemma ThreeReports(before: seq<StatusReport>, during: seq<StatusReport>, after: seq<StatusReport>, a: StatusReport, b: StatusReport, c: StatusReport)
    requires during == before + [a, b] && after == during + [c]
    ensures after == before + [a, b, c]
  {
  }

  /** The module-level state of SyncService.ts. */
  class SyncService {
    var isSyncing: bool
    var isOnline: bool
    /** Registered listeners, by identity. */
    var listeners: seq<nat>
    /** Every status broadcast so far, in order; each listener hears each one. */
    var notices: seq<StatusReport>

    /** The state at module load. */
    constructor ()
      ensures !isSyncing && !isOnline && listeners == [] && notices == []
    {
      isSyncing, isOnline := false, false;
      listeners, notices := [], [];
    }

    /** addSyncListener */
    method AddSyncListener(l: nat)
      modifies this`listeners
      ensures listeners == old(listeners) + [l]
    {
      listeners := listeners + [l];
    }

    /** removeSyncListener: drops every registration of that listener. */
    method RemoveSyncListener(l: nat)
      modifies this`listeners
      ensures listeners == Filter(old(listeners), (x: nat) => x != l)
      ensures l !in listeners
    {
      listeners := Filter(listeners, (x: nat) => x != l);
    }

    /** notifyListeners: the current flags, the queue length and `new Date().toISOString()`, given as `nowIso`. */
    method NotifyListeners(db: Database, nowIso: string)
      modifies this`notices
      ensures notices == old(notices) + [StatusReport(isSyncing, isOnline, |db.pendingActions|, Some(nowIso))]
    {
      var actions := GetPendingActions(db);
      OrderByLength(db.pendingActions, QueuedCreatedAt, false);
      notices := notices + [StatusReport(isSyncing, isOnline, |actions|, Some(nowIso))];
    }

    /** getSyncStatus: the flags and the queue length, without a `lastSync` stamp. */
    method GetSyncStatus(db: Database) returns (r: StatusReport)
      ensures r == StatusReport(isSyncing, isOnline, |db.pendingActions|, None)
    {
      var actions := GetPendingActions(db);
      OrderByLength(db.pendingActions, QueuedCreatedAt, false);
      r := StatusReport(isSyncing, isOnline, |actions|, None);
    }

    /**
     * syncPendingData: skipped outright while a pass runs or while offline;
     * otherwise the four stages, with isSyncing raised around them. The
     * clock reads `startIso` at the first broadcast and `endIso` at the last.
     */
    method SyncPendingData(db: Database, api: Api, startIso: string, endIso: string)
      requires db.Valid()
      modifies this`isSyncing, this`notices, db`tickets, db`comments, db`pendingActions, api
      ensures db.Valid()
      ensures old(isSyncing) || !old(isOnline) ==>
        isSyncing == old(isSyncing) && notices == old(notices)
        && db.tickets == old(db.tickets) && db.comments == old(db.comments) && db.pendingActions == old(db.pendingActions)
        && api.calls == old(api.calls) && api.script == old(api.script)
      ensures !old(isSyncing) && old(isOnline) ==>
        var r := PassRun(PassState(old(db.tickets), old(db.comments), old(db.pendingActions), old(api.script)));
        db.tickets == r.tickets && db.comments == r.comments && db.pendingActions == r.queue && api.script == r.script
        && api.calls == old(api.calls) + PassCalls(PassState(old(db.tickets), old(db.comments), old(db.pendingActions), old(api.script)))
        && !isSyncing
        && notices == old(notices) + [StatusReport(true, isOnline, |old(db.pendingActions)|, Some(startIso)),
                                      StatusReport(false, isOnline, |db.pendingActions|, Some(endIso))]
    {
      if isSyncing {
        return;
      }
      if !isOnline {
        return;
      }
      isSyncing := true;
      NotifyListeners(db, startIso);
      RunStages(db, api);
      isSyncing := false;
      NotifyListeners(db, endIso);
    }

    /** The initial NetInfo.fetch: only the flag. */
    method InitialConnection(connected: bool)
      modifies this`isOnline
      ensures isOnline == connected
    {
      isOnline := connected;
    }

    /**
     * The NetInfo listener: a pass starts exactly when the connection comes
     * back; `startIso` and `endIso` are the pass's clock readings and
     * `nowIso` the one of the listener's own broadcast.
     */
    method OnConnectionChange(db: Database, api: Api, connected: bool, startIso: string, endIso: string, nowIso: string)
      requires db.Valid()
      modifies this`isOnline, this`isSyncing, this`notices, db`tickets, db`comments, db`pendingActions, api
      ensures db.Valid()
      ensures isOnline == connected
      ensures !Reconnects(old(isOnline), connected) ==>
        isSyncing == old(isSyncing)
        && db.tickets == old(db.tickets) && db.comments == old(db.comments) && db.pendingActions == old(db.pendingActions)
        && api.calls == old(api.calls) && api.script == old(api.script)
        && notices == old(notices) + [StatusReport(isSyncing, connected, |db.pendingActions|, Some(nowIso))]
      ensures Reconnects(old(isOnline), connected) && old(isSyncing) ==>
        isSyncing
        && db.tickets == old(db.tickets) && db.comments == old(db.comments) && db.pendingActions == old(db.pendingActions)
        && api.calls == old(api.calls) && api.script == old(api.script)
        && notices == old(notices) + [StatusReport(true, connected, |db.pendingActions|, Some(nowIso))]
      ensures Reconnects(old(isOnline), connected) && !old(isSyncing) ==>
        var s := PassState(old(db.tickets), old(db.comments), old(db.pendingActions), old(api.script));
        var r := PassRun(s);
        db.tickets == r.tickets && db.comments == r.comments && db.pendingActions == r.queue && api.script == r.script
        && api.calls == old(api.calls) + PassCalls(s) && !isSyncing
        && notices == old(notices) + [StatusReport(true, connected, |old(db.pendingActions)|, Some(startIso)),
                                      StatusReport(false, connected, |r.queue|, Some(endIso)),
                                      StatusReport(false, connected, |r.queue|, Some(nowIso))]
    {
      var wasOffline := !isOnline;
      isOnline := connected;
      if wasOffline && isOnline {
        ghost var before := notices;
        SyncPendingData(db, api, startIso, endIso);
        ghost var during := notices;
        NotifyListeners(db, nowIso);
        if !old(isSyncing) {
          ThreeReports(before, during, notices, StatusReport(true, connected, |old(db.pendingActions)|, Some(startIso)),
            StatusReport(false, connected, |db.pendingActions|, Some(endIso)), StatusReport(false, connected, |db.pendingActions|, Some(nowIso)));
        }
      } else {
        NotifyListeners(db, nowIso);
      }
    }
  }

  // ---------------------------------------------------------------------
  // Properties of a pass

  /** Against an unreachable server the ticket stage changes nothing and uses up no answer. */
  lemma {:induction false} TicketsRunOffline(rows: seq<TicketRow>, views: seq<TicketView>)
    ensures TicketsRun(rows, views, []) == (rows, [])
    decreases |views|
  {
    if views != [] {
      TicketsRunOffline(rows, views[1..]);
    }
  }

  /** Against an unreachable server the comment stage changes nothing. */
  lemma {:induction false} CommentsRunOffline(rows: seq<CommentRow>, views: seq<CommentView>)
    ensures CommentsRun(rows, views, []) == (rows, [])
    decreases |views|
  {
    if views != [] {
      CommentsRunOffline(rows, views[1..]);
    }
  }

  /** Against an unreachable server the queue stage touches neither tickets nor comments. */
  lemma {:induction false} ActionsRunOfflineTables(s: PassState, acts: seq<QueuedAction>)
    requires s.script == []
    ensures var r := ActionsRun(s, acts); r.tickets == s.tickets && r.comments == s.comments && r.script == []
    decreases |acts|
  {
    if acts != [] {
      ActionsRunOfflineTables(ActionAfter(s, acts[0]), acts[1..]);
    }
  }

  /** A pass against an unreachable server leaves every ticket and comment row as it was. */
  lemma PassOfflineKeepsRecords(s: PassState)
    requires s.script == []
    ensures PassRun(s).tickets == s.tickets && PassRun(s).comments == s.comments
  {
    TicketsRunOffline(s.tickets, UnsyncedTicketViews(s.tickets));
    CommentsRunOffline(s.comments, UnsyncedCommentViews(s.comments));
    ActionsRunOfflineTables(PassState(s.tickets, s.comments, s.queue, []), QueueOrder(s.queue));
  }

  /** No turn of the queue stage ever adds a row. */
  lemma {:induction false} ActionsRunShrinks(s: PassState, acts: seq<QueuedAction>)
    ensures |ActionsRun(s, acts).queue| <= |s.queue|
    decreases |acts|
  {
    if acts != [] {
      var a := acts[0];
      var t := ActionAfter(s, a);
      assert |t.queue| <= |s.queue| by {
        if !Sends(a) {
        } else {
          var n := Next(s.script);
          var p := Processed(s.(script := n.1), a, n.0);
          if p.Some? {
            assert p.value.queue == s.queue;
          }
        }
      }
      ActionsRunShrinks(t, acts[1..]);
    }
  }

  /** A row whose id is absent stays absent: turns only delete rows or rewrite them in place. */
  lemma {:induction false} ActionsRunKeepsAbsent(s: PassState, acts: seq<QueuedAction>, x: int)
    requires forall r :: r in s.queue ==> r.id != x
    ensures forall r :: r in ActionsRun(s, acts).queue ==> r.id != x
    decreases |acts|
  {
    if acts != [] {
      var a := acts[0];
      var t := ActionAfter(s, a);
      forall r | r in t.queue ensures r.id != x {
        if !Sends(a) {
          var k :| 0 <= k < |t.queue| && t.queue[k] == r;
        } else {
          var n := Next(s.script);
          var p := Processed(s.(script := n.1), a, n.0);
          if p.Some? {
            assert p.value.queue == s.queue;
            var k :| 0 <= k < |t.queue| && t.queue[k] == r;
          } else {
            var k :| 0 <= k < |t.queue| && t.queue[k] == r;
            assert s.queue[k] in s.queue;
          }
        }
      }
      ActionsRunKeepsAbsent(t, acts[1..], x);
    }
  }

  /**
   * A queued action the pass has nothing to send for (a ticket DELETE, a
   * comment UPDATE or DELETE, any attachment action) leaves the queue as
   * a success.
   */
  lemma {:induction false} SilentActionsLeave(s: PassState, acts: seq<QueuedAction>, a: QueuedAction)
    requires a in acts && !Sends(a)
    ensures forall r :: r in ActionsRun(s, acts).queue ==> r.id != a.id
    decreases |acts|
  {
    if acts[0] == a {
      var t := ActionAfter(s, a);
      forall r | r in t.queue ensures r.id != a.id {
        var k :| 0 <= k < |t.queue| && t.queue[k] == r;
      }
      ActionsRunKeepsAbsent(t, acts[1..], a.id);
    } else {
      SilentActionsLeave(ActionAfter(s, acts[0]), acts[1..], a);
    }
  }

  /** Ids of a snapshot, pairwise distinct. */
  predicate DistinctIds(acts: seq<QueuedAction>) {
    forall i, j :: 0 <= i < j < |acts| ==> acts[i].id != acts[j].id
  }

  /** A turn for another id keeps a row as it is. */
  lemma OtherTurnKeeps(s: PassState, b: QueuedAction, r: QueuedAction)
    requires r in s.queue && r.id != b.id
    ensures r in ActionAfter(s, b).queue
  {
    var k :| 0 <= k < |s.queue| && s.queue[k] == r;
    if !Sends(b) {
    } else {
      var n := Next(s.script);
      var p := Processed(s.(script := n.1), b, n.0);
      if p.Some? {
        assert p.value.queue == s.queue;
      } else {
        assert AttemptRecorded(s.queue, b.id, Some(UnknownError))[k] == r;
      }
    }
  }

  /**
   * While the server is unreachable every queued action that sends a
   * request stays queued, with its attempt counted once and the error
   * recorded as "Unknown error".
   */
  lemma {:induction false} OfflineActionsCounted(s: PassState, acts: seq<QueuedAction>, a: QueuedAction)
    requires s.script == [] && DistinctIds(acts)
    requires a in acts && a in s.queue && Sends(a)
    ensures Attempted(a, Some(UnknownError)) in ActionsRun(s, acts).queue
    decreases |acts|
  {
    var b := acts[0];
    var t := ActionAfter(s, b);
    if b == a {
      var k :| 0 <= k < |s.queue| && s.queue[k] == a;
      assert t.queue == AttemptRecorded(s.queue, a.id, Some(UnknownError));
      assert t.queue[k] == Attempted(a, Some(UnknownError));
      assert t.script == [];
      forall j | 0 <= j < |acts[1..]| ensures acts[1..][j].id != a.id {
        assert acts[1..][j] == acts[j + 1];
      }
      KeptThroughOthers(t, acts[1..], Attempted(a, Some(UnknownError)));
    } else {
      assert b.id != a.id by {
        var j :| 0 <= j < |acts| && acts[j] == a;
        assert j != 0;
      }
      OtherTurnKeeps(s, b, a);
      assert t.script == [] by {
        if Sends(b) {
          var n := Next(s.script);
          var p := Processed(s.(script := n.1), b, n.0);
          assert n.0.Err? && p.None?;
        }
      }
      assert a in acts[1..] by {
        var j :| 0 <= j < |acts| && acts[j] == a;
        assert acts[1..][j - 1] == a;
      }
      forall i, j | 0 <= i < j < |acts[1..]| ensures acts[1..][i].id != acts[1..][j].id {
        assert acts[1..][i] == acts[i + 1] && acts[1..][j] == acts[j + 1];
      }
      OfflineActionsCounted(t, acts[1..], a);
    }
  }

  /** A row survives every turn for other ids. */
  lemma {:induction false} KeptThroughOthers(s: PassState, acts: seq<QueuedAction>, r: QueuedAction)
    requires r in s.queue
    requires forall j :: 0 <= j < |acts| ==> acts[j].id != r.id
    ensures r in ActionsRun(s, acts).queue
    decreases |acts|
  {
    if acts != [] {
      OtherTurnKeeps(s, acts[0], r);
      assert forall j :: 0 <= j < |acts[1..]| ==> acts[1..][j].id != r.id by {
        forall j | 0 <= j < |acts[1..]| ensures acts[1..][j].id != r.id {
          assert acts[1..][j] == acts[j + 1];
        }
      }
      KeptThroughOthers(ActionAfter(s, acts[0]), acts[1..], r);
    }
  }

  /**
   * A ticket created on this device and synced once keeps its 'local_'
   * localId; after any local edit the next pass sends a create request for
   * it again instead of an update.
   */
  lemma SyncedLocalTicketIsCreatedAgain(row: TicketRow, serverId: string, u: Patch, now: string)
    requires StartsWith(row.localId, "local_")
    ensures var edited := ApplyUpdate(SyncedTicket(row, serverId), u, now);
      UnsyncedTicketViews([edited]) == [ViewTicket(edited, [], [], false)]
      && TicketCall(ViewTicket(edited, [], [], false)).CreateTicketCall?
  {
    SyncedTicketComesBack(row, serverId, u, now);
  }

  /**
   * Every unsynced comment is posted with the ticket id stored in its row,
   * whether or not that ticket has reached the server; nothing but the
   * order of the stages puts a ticket ahead of its comments.
   */
  lemma CommentPostedWithStoredTicketId(s: PassState, c: CommentRow)
    requires c in s.comments && c.isSynced == 0
    ensures CommentCall(ViewComment(c, false)) in PassCalls(s)
    ensures CommentCall(ViewComment(c, false)).ticketId == c.ticketId
  {
    var q := UnsyncedCommentsQuery(s.comments);
    var k :| 0 <= k < |s.comments| && s.comments[k] == c;
    assert c in q;
    var j :| 0 <= j < |q| && q[j] == c;
    var calls := CommentCalls(UnsyncedCommentViews(s.comments));
    assert calls[j] == CommentCall(ViewComment(c, false));
    var all := PassCalls(s);
    var pre := TicketCalls(UnsyncedTicketViews(s.tickets));
    assert all[|pre| + j] == calls[j];
  }
}
