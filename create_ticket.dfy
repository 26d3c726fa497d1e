/**
 * hooks/tickets/useCreateTicket.ts: `mutate(data)`. Online it posts the
 * ticket and clears the AsyncStorageCache list and details; offline it
 * builds the ticket under a fresh 'offline_' id, files it with the offline
 * tickets, puts it at the head of a cached list, and queues a 'create'
 * action that names it.
 */
module CreateTicketHook {
  import opened Wrappers
  import opened JsValues
  import opened Schema
  import opened KeyValue
  import opened Remote
  import opened Session
  import TicketStorage
  import StorageCache
  import OfflineSync

  /** `CreateTicketData` without attachments. */
  datatype CreateTicketData = CreateTicketData(title: string, description: string, category: string, priority: string)

  /** The data as the ticket fields it sets. */
  function DataFields(d: CreateTicketData): Patch {
    Patch(Some(d.title), Some(d.description), Some(d.category), Some(d.priority), None, None)
  }

  /** `createdBy` of an offline ticket: `String(user?.id || 0)`, `user?.name || 'Você'`, `user?.email || ''`. */
  function OfflineCreator(user: Option<User>): Creator {
    Creator(Some(Falsy(user, (u: User) => u.id, "0")),
            Some(Falsy(user, (u: User) => u.name, "Voc\U{00EA}")),
            Some(Falsy(user, (u: User) => u.email, "")))
  }

  /** The ticket the offline branch builds. */
  function OfflineTicket(d: CreateTicketData, user: Option<User>, offlineId: string, now: string): Ticket {
    Ticket(Str(offlineId), d.title, d.description, d.category, d.priority, "open", now, now, [], [], Some(OfflineCreator(user)))
  }

  /** The queue entry of the offline branch: type 'create', the data, and the ticket's id as `localTicketId`. */
  function CreateAction(d: CreateTicketData, offlineId: string, actionEnv: Env): PendingAction {
    TicketStorage.NewPendingAction(CreateType, None, TicketFields(DataFields(d)), Some(offlineId), actionEnv)
  }

  /** A cached list with `t` put first (`unshift`), or nothing when no list is cached. */
  function Prepended(e: Entries, t: Ticket, listAt: TicketStorage.ListStamps): Entries {
    match TicketStorage.GetTicketsFromStorage(e)
    case None => e
    case Some(l) => TicketStorage.SavedTickets(e, l.(data := [t] + l.data), listAt)
  }

  /**
   * The store after the offline branch: `env` is the clock and random
   * token of the ticket's id, `listAt` the two readings of the list save,
   * `actionEnv` those addPendingAction reads.
   */
  function OfflineCreate(e: Entries, d: CreateTicketData, user: Option<User>, env: Env, listAt: TicketStorage.ListStamps, actionEnv: Env): Entries {
    var t := OfflineTicket(d, user, OfflineId(env), env.nowIso);
    var e1 := TicketStorage.SavedOffline(e, t, env.nowIso);
    TicketStorage.AddedAction(Prepended(e1, t, listAt), CreateAction(d, OfflineId(env), actionEnv))
  }

  /** What the online branch leaves: the outcome handed to onSuccess/onError, the store and the script. */
  datatype OnlineRun = OnlineRun(outcome: Result<Option<JsId>>, entries: Entries, script: seq<Result<Reply>>)

  /**
   * The online branch. A rejected request skips the cache clear and ends
   * in onError; otherwise onSuccess gets the new id, when it is truthy.
   */
  function OnlineCreate(e: Entries, script: seq<Result<Reply>>): (r: OnlineRun)
    ensures r.script == Next(script).1
    ensures r.outcome.Err? <==> Next(script).0.Err?
    ensures r.outcome.Err? ==> r.entries == e && r.outcome.error == Next(script).0.error
    ensures r.outcome.Ok? ==> r.entries == StorageCache.ClearedCache(e)
    ensures r.outcome.Ok? ==> (r.outcome.value.Some? <==> IdTruthy(Some(ReplyId(Next(script).0.value))))
    ensures r.outcome.Ok? && r.outcome.value.Some? ==> r.outcome.value.value == ReplyId(Next(script).0.value)
  {
    var (answer, rest) := Next(script);
    match answer
    case Err(m) => OnlineRun(Err(m), e, rest)
    case Ok(reply) =>
      var id := ReplyId(reply);
      OnlineRun(Ok(if IdTruthy(Some(id)) then Some(id) else None), StorageCache.ClearedCache(e), rest)
  }

  /** The hook's state: the connectivity and user it closes over, and `isPending`. */
  class CreateTicket {
    const isOnline: bool
    const user: Option<User>
    var isPending: bool

    constructor (isOnline: bool, user: Option<User>)
      ensures this.isOnline == isOnline && this.user == user && !isPending
    {
      this.isOnline := isOnline;
      this.user := user;
      isPending := false;
    }

    /**
     * mutate(data). Offline it always ends in onSuccess with the offline
     * id and makes no request; online it makes exactly one request.
     */
    method Mutate(st: Store, api: Api, data: CreateTicketData, env: Env, listAt: TicketStorage.ListStamps, actionEnv: Env)
      returns (outcome: Result<Option<JsId>>)
      modifies this, st, api
      ensures !isPending
      ensures isOnline ==>
        api.calls == old(api.calls) + [CreateCall(DataFields(data))]
        && OnlineRun(outcome, st.entries, api.script) == OnlineCreate(old(st.entries), old(api.script))
      ensures !isOnline ==>
        api.calls == old(api.calls) && api.script == old(api.script)
        && st.entries == OfflineCreate(old(st.entries), data, user, env, listAt, actionEnv)
        && outcome == Ok(Some(Str(OfflineId(env))))
    {
      isPending := true;
      if isOnline {
        var answer := api.Call(CreateCall(DataFields(data)));
        match answer
        case Err(m) =>
          outcome := Err(m);
        case Ok(ticket) =>
          StorageCache.ClearTicketsCache(st);
          var id := ReplyId(ticket);
          outcome := Ok(if IdTruthy(Some(id)) then Some(id) else None);
      } else {
        var offlineId := OfflineId(env);
        var offlineTicket := OfflineTicket(data, user, offlineId, env.nowIso);
        TicketStorage.SaveOfflineTicket(st, offlineTicket, env.nowIso);
        var cachedList := TicketStorage.GetTicketsFromStorage(st.entries);
        if cachedList.Some? {
          TicketStorage.SaveTicketsToStorage(st, cachedList.value.(data := [offlineTicket] + cachedList.value.data), listAt);
        }
        var _ := TicketStorage.AddPendingAction(st, CreateType, None, TicketFields(DataFields(data)), Some(offlineId), actionEnv);
        outcome := Ok(Some(Str(offlineId)));
      }
      isPending := false;
    }
  }

  // ---------------------------------------------------------------------
  // What the offline branch leaves behind

  /**
   * The offline ticket is the last offline ticket and is cached as a
   * detail under its id, which the app recognises as offline; the queue
   * gains exactly the 'create' action naming it.
   */
  lemma OfflineCreateFiles(e: Entries, d: CreateTicketData, user: Option<User>, env: Env, listAt: TicketStorage.ListStamps, actionEnv: Env)
    ensures var t := OfflineTicket(d, user, OfflineId(env), env.nowIso);
      var r := OfflineCreate(e, d, user, env, listAt, actionEnv);
      TicketStorage.GetOfflineTickets(r) == TicketStorage.GetOfflineTickets(e) + [t]
      && TicketStorage.GetTicketDetailsFromStorage(r, t.id) == Some(t)
      && TicketStorage.IsOfflineTicket(t.id)
      && TicketStorage.GetPendingActions(r) == TicketStorage.GetPendingActions(e) + [CreateAction(d, OfflineId(env), actionEnv)]
  {
    var t := OfflineTicket(d, user, OfflineId(env), env.nowIso);
    var e1 := TicketStorage.SavedOffline(e, t, env.nowIso);
    TicketStorage.DetailKeyDistinct(t.id);
    TicketStorage.OfflineIdIsOffline(env);
    assert TicketStorage.GetOfflineTickets(Prepended(e1, t, listAt)) == TicketStorage.GetOfflineTickets(e1);
    assert TicketStorage.GetTicketDetailsFromStorage(Prepended(e1, t, listAt), t.id) == Some(t);
    assert TicketStorage.GetPendingActions(Prepended(e1, t, listAt)) == TicketStorage.GetPendingActions(e);
  }

  /** A cached list gets the offline ticket at its head and nowhere else; without one, no list appears. */
  lemma OfflineCreatePrepends(e: Entries, d: CreateTicketData, user: Option<User>, env: Env, listAt: TicketStorage.ListStamps, actionEnv: Env)
    ensures var t := OfflineTicket(d, user, OfflineId(env), env.nowIso);
      var r := OfflineCreate(e, d, user, env, listAt, actionEnv);
      match TicketStorage.GetTicketsFromStorage(e)
      case None => TicketStorage.GetTicketsFromStorage(r) == None
      case Some(l) => TicketStorage.GetTicketsFromStorage(r) == Some(l.(data := [t] + l.data, cachedAt := Some(listAt.cachedAt)))
  {
    var t := OfflineTicket(d, user, OfflineId(env), env.nowIso);
    TicketStorage.DetailKeyDistinct(t.id);
    var e1 := TicketStorage.SavedOffline(e, t, env.nowIso);
    assert TicketStorage.GetTicketsFromStorage(e1) == TicketStorage.GetTicketsFromStorage(e);
  }

  /**
   * The queued 'create' replays, in syncAll, as the very request the
   * online branch sends; once the server accepts it, the offline ticket
   * leaves the offline list.
   */
  lemma QueuedCreateReplaysOnline(e: Entries, script: seq<Result<Reply>>, d: CreateTicketData, offlineId: string, actionEnv: Env)
    requires offlineId != ""
    ensures OfflineSync.CallOf(CreateAction(d, offlineId, actionEnv)) == [CreateCall(DataFields(d))]
    ensures Next(script).0.Ok? ==>
      var x := OfflineSync.SyncActionEffect(e, script, CreateAction(d, offlineId, actionEnv));
      x.ok && forall t :: t in TicketStorage.GetOfflineTickets(x.entries) ==> IdString(t.id) != offlineId
  {
    var x := OfflineSync.SyncActionEffect(e, script, CreateAction(d, offlineId, actionEnv));
    if Next(script).0.Ok? {
      assert x.entries == TicketStorage.RemovedOffline(e, offlineId);
      forall t | t in TicketStorage.GetOfflineTickets(x.entries) ensures IdString(t.id) != offlineId {
        var r := TicketStorage.GetOfflineTickets(x.entries);
        var i :| 0 <= i < |r| && r[i] == t;
      }
    }
  }
}
