/**
 * hooks/tickets/useUpdateTicket.ts: `mutate(data)` for one ticket id.
 * Online, for a ticket the server knows, it sends the update and clears
 * the AsyncStorageCache detail and list; otherwise it merges the update
 * into the AsyncStorage copies and then queues an 'update' action.
 */
module UpdateTicketHook {
  import opened Wrappers
  import opened JsValues
  import opened Schema
  import opened KeyValue
  import opened Remote
  import TicketStorage
  import StorageCache
  import OfflineSync

  /** Whether the request is sent: online, and the id is not an offline one. */
  predicate TakesApiPath(isOnline: bool, ticketId: string) {
    isOnline && !TicketStorage.IsOfflineTicket(Str(ticketId))
  }

  /** `Number(ticketId)` as it reaches the path and the detail key. */
  function NumericId(ticketId: string): JsId {
    Str(NumberText(Str(ticketId)))
  }

  /** The queue entry of the offline branch. */
  function UpdateAction(ticketId: string, data: Patch, actionEnv: Env): PendingAction {
    TicketStorage.NewPendingAction(UpdateType, Some(Str(ticketId)), TicketFields(data), None, actionEnv)
  }

  /** The store after the offline branch: the merge first, then the queue entry. */
  function OfflineUpdate(e: Entries, ticketId: string, data: Patch, now: string, listAt: TicketStorage.ListStamps, actionEnv: Env): Entries {
    TicketStorage.AddedAction(TicketStorage.UpdatedOffline(e, Str(ticketId), data, now, listAt), UpdateAction(ticketId, data, actionEnv))
  }

  /** The online branch: a rejected request leaves the store alone; otherwise the detail and then the list cache go. */
  function OnlineUpdate(e: Entries, script: seq<Result<Reply>>, ticketId: string): (r: (Outcome, Entries, seq<Result<Reply>>))
    ensures r.2 == Next(script).1
    ensures r.0.Fail? <==> Next(script).0.Err?
    ensures r.0.Fail? ==> r.1 == e
  {
    var (answer, rest) := Next(script);
    match answer
    case Err(m) => (Fail(m), e, rest)
    case Ok(_) => (Pass, StorageCache.ClearedCache(StorageCache.ClearedDetail(e, NumericId(ticketId))), rest)
  }

  /** The hook's state for one ticket. */
  class UpdateTicket {
    const ticketId: string
    const isOnline: bool
    var isPending: bool

    constructor (ticketId: string, isOnline: bool)
      ensures this.ticketId == ticketId && this.isOnline == isOnline && !isPending
    {
      this.ticketId := ticketId;
      this.isOnline := isOnline;
      isPending := false;
    }

    /** mutate(data): onSuccess after either branch unless the request was rejected. */
    method Mutate(st: Store, api: Api, data: Patch, nowIso: string, listAt: TicketStorage.ListStamps, actionEnv: Env) returns (outcome: Outcome)
      modifies this, st, api
      ensures !isPending
      ensures TakesApiPath(isOnline, ticketId) ==>
        api.calls == old(api.calls) + [UpdateTicketCall(NumberText(Str(ticketId)), data)]
        && (outcome, st.entries, api.script) == OnlineUpdate(old(st.entries), old(api.script), ticketId)
      ensures !TakesApiPath(isOnline, ticketId) ==>
        api.calls == old(api.calls) && api.script == old(api.script) && outcome == Pass
        && st.entries == OfflineUpdate(old(st.entries), ticketId, data, nowIso, listAt, actionEnv)
    {
      isPending := true;
      var isOffline := TicketStorage.IsOfflineTicket(Str(ticketId));
      if isOnline && !isOffline {
        var ticketIdNum := NumberText(Str(ticketId));
        var answer := api.Call(UpdateTicketCall(ticketIdNum, data));
        if answer.Err? {
          outcome := Fail(answer.error);
        } else {
          StorageCache.ClearTicketDetail(st, Str(ticketIdNum));
          StorageCache.ClearTicketsCache(st);
          outcome := Pass;
        }
      } else {
        TicketStorage.UpdateOfflineTicket(st, Str(ticketId), data, nowIso, listAt);
        var _ := TicketStorage.AddPendingAction(st, UpdateType, Some(Str(ticketId)), TicketFields(data), None, actionEnv);
        outcome := Pass;
      }
      isPending := false;
    }
  }

  // ---------------------------------------------------------------------
  // Properties

  /** After an accepted online update neither the list nor any detail of AsyncStorageCache is left. */
  lemma OnlineUpdateDropsCaches(e: Entries, script: seq<Result<Reply>>, ticketId: string, id: JsId)
    requires Next(script).0.Ok?
    ensures var r := OnlineUpdate(e, script, ticketId);
      r.0 == Pass && StorageCache.LoadTicketsList(r.1) == None && StorageCache.LoadTicketDetail(r.1, id) == None
  {
    StorageCache.NoDetailAfterClear(StorageCache.ClearedDetail(e, NumericId(ticketId)), id);
  }

  /**
   * Offline, the update is merged into the first offline ticket with that
   * id, and the queue gains exactly the 'update' action carrying the id
   * and the data.
   */
  lemma OfflineUpdateMergesAndQueues(e: Entries, ticketId: string, data: Patch, now: string, listAt: TicketStorage.ListStamps, actionEnv: Env)
    ensures var r := OfflineUpdate(e, ticketId, data, now, listAt, actionEnv);
      TicketStorage.GetOfflineTickets(r) == TicketStorage.UpdateFirst(TicketStorage.GetOfflineTickets(e), Str(ticketId), data)
      && TicketStorage.GetPendingActions(r) == TicketStorage.GetPendingActions(e) + [UpdateAction(ticketId, data, actionEnv)]
  {
    TicketStorage.UpdateOfflineList(e, Str(ticketId), data, now, listAt);
    TicketStorage.UpdateOfflineQueue(e, Str(ticketId), data, now, listAt);
  }

  /**
   * An edit of a ticket created offline replays, in syncAll, as an update
   * of the path "NaN": the queue keeps the 'offline_' id and syncUpdate
   * passes it through `Number`.
   */
  lemma OfflineTicketEditHitsNaN(ticketEnv: Env, data: Patch, actionEnv: Env)
    ensures OfflineSync.CallOf(UpdateAction(OfflineId(ticketEnv), data, actionEnv)) == [UpdateTicketCall("NaN", data)]
  {
    OfflineSync.OfflineTargetsNaN(UpdateAction(OfflineId(ticketEnv), data, actionEnv), ticketEnv);
  }

  /** A ticket the server numbered takes the API path whenever the app is online, under its own number. */
  lemma ServerTicketGoesOnline(n: int)
    ensures TakesApiPath(true, Text.IntToString(n))
    ensures NumericId(Text.IntToString(n)) == Str(Text.IntToString(n))
  {
    TicketStorage.ServerIdNotOffline(n);
    Text.NumberOfIntString(n);
  }
}
