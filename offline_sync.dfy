/**
 * services/OfflineSyncService.ts: replays the AsyncStorage action queue
 * against the server, oldest first, dropping each action that went
 * through, then empties the hooks' cache so the screens reload.
 */
module OfflineSync {
  import opened Wrappers
  import opened JsValues
  import opened Schema
  import opened Query
  import opened KeyValue
  import opened Remote
  import opened TicketStorage
  import StorageCache

  /** `action.data` read as ticket fields; a comment has none of them. */
  function PatchOf(d: ActionData): Patch {
    match d
    case TicketFields(p) => p
    case CommentFields(_) => NoChange
  }

  /** `{ status: action.data.status }` */
  function StatusOnly(d: ActionData): Patch {
    NoChange.(status := PatchOf(d).status)
  }

  /** The request for an action aimed at the ticket whose path id is `path`. */
  function TargetedCall(kind: PendingType, path: string, data: ActionData): ApiCall {
    match kind
    case UpdateStatusType => UpdateTicketCall(path, StatusOnly(data))
    case AddCommentType => AddCommentCall(path, ObjectBody(data))
    case _ => UpdateTicketCall(path, PatchOf(data))
  }

  /**
   * The request syncAction sends for `a`: none for an unknown type, and
   * none when an update, status change or comment has a falsy ticketId.
   */
  function CallOf(a: PendingAction): seq<ApiCall> {
    if a.kind.OtherType? then []
    else if a.kind.CreateType? then [CreateCall(PatchOf(a.data))]
    else if IdTruthy(a.ticketId) then [TargetedCall(a.kind, NumberText(a.ticketId.value), a.data)]
    else []
  }

  /** The requests for a run of actions, in order. */
  function Calls(acts: seq<PendingAction>): (r: seq<ApiCall>)
    ensures |r| <= |acts|
  {
    if acts == [] then [] else Calls(acts[..|acts| - 1]) + CallOf(acts[|acts| - 1])
  }

  lemma CallsStep(acts: seq<PendingAction>, i: nat)
    requires i < |acts|
    ensures Calls(acts[..i + 1]) == Calls(acts[..i]) + CallOf(acts[i])
  {
    assert acts[..i + 1][..i] == acts[..i];
  }

  /** What one syncAction does: the store and script after it, and whether it resolved. */
  datatype Effect = Effect(entries: Entries, script: seq<Result<Reply>>, ok: bool)

  /**
   * syncAction(a). Without a request it resolves for an unknown type and
   * throws for a missing id; otherwise it resolves with the request. A
   * created ticket's offline copy is removed only after the server accepted it.
   */
  function SyncActionEffect(e: Entries, script: seq<Result<Reply>>, a: PendingAction): (r: Effect)
    ensures CallOf(a) == [] ==> r == Effect(e, script, a.kind.OtherType?)
    ensures CallOf(a) != [] ==> r.script == Next(script).1 && r.ok == Next(script).0.Ok?
    ensures !(r.ok && a.kind.CreateType? && Truthy(a.localTicketId)) ==> r.entries == e
  {
    if CallOf(a) == [] then Effect(e, script, a.kind.OtherType?)
    else
      var (answer, rest) := Next(script);
      if answer.Err? then Effect(e, rest, false)
      else if a.kind.CreateType? && Truthy(a.localTicketId) then Effect(RemovedOffline(e, a.localTicketId.value), rest, true)
      else Effect(e, rest, true)
  }

  /** One turn of the loop: syncAction, then removePendingAction when it resolved. */
  function StepEffect(e: Entries, script: seq<Result<Reply>>, a: PendingAction): Effect {
    var x := SyncActionEffect(e, script, a);
    if x.ok then x.(entries := RemovedAction(x.entries, a.id)) else x
  }

  /** The outcome of replaying a run of actions. */
  datatype Tally = Tally(entries: Entries, script: seq<Result<Reply>>, success: nat, failed: nat)

  /** The loop of syncAll over `acts`, oldest first: the run over all but the last, then the last. */
  function RunActions(e: Entries, script: seq<Result<Reply>>, acts: seq<PendingAction>): Tally
    decreases |acts|
  {
    if acts == [] then Tally(e, script, 0, 0)
    else NextTally(RunActions(e, script, acts[..|acts| - 1]), acts[|acts| - 1])
  }

  /** The tally after one more turn of the loop on `a`. */
  function NextTally(t: Tally, a: PendingAction): Tally {
    var x := StepEffect(t.entries, t.script, a);
    Tally(x.entries, x.script, t.success + (if x.ok then 1 else 0), t.failed + (if x.ok then 0 else 1))
  }

  /** One more turn of the loop. */
  lemma RunActionsStep(e: Entries, script: seq<Result<Reply>>, acts: seq<PendingAction>, i: nat)
    requires i < |acts|
    ensures RunActions(e, script, acts[..i + 1]) == NextTally(RunActions(e, script, acts[..i]), acts[i])
  {
    assert acts[..i + 1][..i] == acts[..i];
    assert acts[..i + 1][i] == acts[i];
  }

  /** The replay's tally carried over one more turn. */
  lemma TallyOneMore(e0: Entries, s0: seq<Result<Reply>>, acts: seq<PendingAction>, i: nat, before: Tally, after: Tally)
    requires i < |acts| && before == RunActions(e0, s0, acts[..i]) && after == NextTally(before, acts[i])
    ensures after == RunActions(e0, s0, acts[..i + 1])
  {
    RunActionsStep(e0, s0, acts, i);
  }

  /** The replay's requests carried over one more turn. */
  lemma CallsOneMore(c0: seq<ApiCall>, acts: seq<PendingAction>, i: nat, before: seq<ApiCall>, after: seq<ApiCall>)
    requires i < |acts| && before == c0 + Calls(acts[..i]) && after == before + CallOf(acts[i])
    ensures after == c0 + Calls(acts[..i + 1])
  {
    CallsStep(acts, i);
  }

  /** The ids of the actions that went through. */
  function SucceededIds(e: Entries, script: seq<Result<Reply>>, acts: seq<PendingAction>): set<string>
    decreases |acts|
  {
    if acts == [] then {}
    else
      var t := RunActions(e, script, acts[..|acts| - 1]);
      var x := StepEffect(t.entries, t.script, acts[|acts| - 1]);
      SucceededIds(e, script, acts[..|acts| - 1]) + (if x.ok then {acts[|acts| - 1].id} else {})
  }

  /** syncAll after the guard: nothing to do on an empty queue, else the loop and the cache clear. */
  function SyncAllRun(e: Entries, script: seq<Result<Reply>>): Tally {
    var acts := GetPendingActions(e);
    if |acts| == 0 then Tally(e, script, 0, 0)
    else
      var t := RunActions(e, script, acts);
      t.(entries := StorageCache.ClearedCache(t.entries))
  }

  /** Every action is counted once, as a success or as a failure. */
  lemma {:induction false} TallyCounts(e: Entries, script: seq<Result<Reply>>, acts: seq<PendingAction>)
    ensures RunActions(e, script, acts).success + RunActions(e, script, acts).failed == |acts|
    decreases |acts|
  {
    if acts != [] {
      TallyCounts(e, script, acts[..|acts| - 1]);
    }
  }

  /** The queue a step leaves: the succeeded action is filtered out, nothing else is touched. */
  lemma StepQueue(e: Entries, script: seq<Result<Reply>>, a: PendingAction)
    ensures GetPendingActions(StepEffect(e, script, a).entries)
         == if StepEffect(e, script, a).ok then Filter(GetPendingActions(e), (b: PendingAction) => b.id != a.id)
            else GetPendingActions(e)
  {
  }

  /** Filtering out a set of ids and then one more id is filtering out their union. */
  lemma {:induction false} KeepThenDrop(q: seq<PendingAction>, gone: set<string>, id: string)
    ensures Filter(Filter(q, (b: PendingAction) => b.id !in gone), (b: PendingAction) => b.id != id)
         == Filter(q, (b: PendingAction) => b.id !in gone + {id})
  {
    if q != [] {
      var init := q[..|q| - 1];
      var x := q[|q| - 1];
      assert q == init + [x];
      KeepThenDrop(init, gone, id);
      FilterSnoc(init, x, (b: PendingAction) => b.id !in gone);
      FilterSnoc(init, x, (b: PendingAction) => b.id !in gone + {id});
      if x.id !in gone {
        FilterSnoc(Filter(init, (b: PendingAction) => b.id !in gone), x, (b: PendingAction) => b.id != id);
      }
    }
  }

  /** After the loop the queue holds exactly the actions that did not go through, in their order. */
  lemma {:induction false} RunQueue(e: Entries, script: seq<Result<Reply>>, acts: seq<PendingAction>)
    ensures GetPendingActions(RunActions(e, script, acts).entries)
         == Filter(GetPendingActions(e), (b: PendingAction) => b.id !in SucceededIds(e, script, acts))
    decreases |acts|
  {
    var q := GetPendingActions(e);
    if acts == [] {
      FilterAll(q, (b: PendingAction) => b.id !in SucceededIds(e, script, acts));
    } else {
      var init := acts[..|acts| - 1];
      var a := acts[|acts| - 1];
      var t := RunActions(e, script, init);
      var x := StepEffect(t.entries, t.script, a);
      var gone := SucceededIds(e, script, init);
      RunQueue(e, script, init);
      StepQueue(t.entries, t.script, a);
      if x.ok {
        assert SucceededIds(e, script, acts) == gone + {a.id};
        KeepThenDrop(q, gone, a.id);
      } else {
        assert SucceededIds(e, script, acts) == gone;
      }
    }
  }

  /** A step consumes one answer exactly when it makes a request. */
  lemma StepScript(e: Entries, script: seq<Result<Reply>>, a: PendingAction)
    ensures |CallOf(a)| <= 1
    ensures |script| >= |CallOf(a)| ==> StepEffect(e, script, a).script == script[|CallOf(a)|..]
  {
    if CallOf(a) != [] && script != [] {
      assert [Next(script).0] + Next(script).1 == script;
    }
  }

  /** The answers the loop uses are the first |Calls(acts)| of the script, whatever they say. */
  lemma {:induction false} RunScript(e: Entries, script: seq<Result<Reply>>, acts: seq<PendingAction>)
    ensures |script| >= |Calls(acts)| ==> RunActions(e, script, acts).script == script[|Calls(acts)|..]
    decreases |acts|
  {
    if acts != [] && |script| >= |Calls(acts)| {
      var init := acts[..|acts| - 1];
      var a := acts[|acts| - 1];
      var t := RunActions(e, script, init);
      assert RunActions(e, script, acts).script == StepEffect(t.entries, t.script, a).script;
      assert |Calls(acts)| == |Calls(init)| + |CallOf(a)|;
      RunScript(e, script, init);
      StepScript(t.entries, t.script, a);
      assert script[|Calls(init)|..][|CallOf(a)|..] == script[|Calls(acts)|..];
    }
  }

  /**
   * An update, status change or comment queued against a ticket created
   * offline is sent to `/tickets/NaN`: the queue keeps the 'offline_' id
   * after the create went through, and Number() of it is NaN.
   */
  lemma OfflineTargetsNaN(a: PendingAction, env: Env)
    requires a.kind.UpdateType? || a.kind.UpdateStatusType? || a.kind.AddCommentType?
    requires a.ticketId == Some(Str(OfflineId(env)))
    ensures CallOf(a) == [TargetedCall(a.kind, "NaN", a.data)]
  {
    OfflineIdIsNaN(env);
  }

  /** hasPendingActions */
  function HasPendingActions(e: Entries): bool {
    |GetPendingActions(e)| > 0
  }

  /** getPendingCount */
  function GetPendingCount(e: Entries): nat {
    |GetPendingActions(e)|
  }

  /** Queuing an action adds one to the count; clearing the queue leaves none. */
  lemma PendingCountAfterChanges(e: Entries, a: PendingAction)
    ensures GetPendingCount(AddedAction(e, a)) == GetPendingCount(e) + 1
    ensures HasPendingActions(AddedAction(e, a))
    ensures !HasPendingActions(ClearedActions(e)) && GetPendingCount(ClearedActions(e)) == 0
  {
  }

  /** The sync service and its reentrancy flag. */
  class OfflineSyncService {
    var isSyncing: bool

    constructor ()
      ensures !isSyncing
    {
      isSyncing := false;
    }

    /** syncAction(action) */
    method SyncAction(st: Store, api: Api, a: PendingAction) returns (ok: bool)
      modifies st, api
      ensures api.calls == old(api.calls) + CallOf(a)
      ensures SyncActionEffect(old(st.entries), old(api.script), a) == Effect(st.entries, api.script, ok)
    {
      match a.kind {
        case CreateType =>
          var r := api.Call(CreateCall(PatchOf(a.data)));
          ok := r.Ok?;
          if ok && Truthy(a.localTicketId) {
            RemoveOfflineTicket(st, a.localTicketId.value);
          }
        case UpdateType =>
          if !IdTruthy(a.ticketId) {
            ok := false;
          } else {
            var r := api.Call(UpdateTicketCall(NumberText(a.ticketId.value), PatchOf(a.data)));
            ok := r.Ok?;
          }
        case UpdateStatusType =>
          if !IdTruthy(a.ticketId) {
            ok := false;
          } else {
            var r := api.Call(UpdateTicketCall(NumberText(a.ticketId.value), StatusOnly(a.data)));
            ok := r.Ok?;
          }
        case AddCommentType =>
          if !IdTruthy(a.ticketId) {
            ok := false;
          } else {
            var r := api.Call(AddCommentCall(NumberText(a.ticketId.value), ObjectBody(a.data)));
            ok := r.Ok?;
          }
        case OtherType(_) =>
          ok := true;
      }
    }

    /** One turn of the loop in syncAll: syncAction, then removePendingAction and the count. */
    method SyncStep(st: Store, api: Api, action: PendingAction, success: nat, failed: nat)
      returns (success': nat, failed': nat)
      modifies st, api
      ensures api.calls == old(api.calls) + CallOf(action)
      ensures Tally(st.entries, api.script, success', failed')
           == NextTally(Tally(old(st.entries), old(api.script), success, failed), action)
    {
      var ok := SyncAction(st, api, action);
      if ok {
        RemovePendingAction(st, action.id);
        success', failed' := success + 1, failed;
      } else {
        success', failed' := success, failed + 1;
      }
    }

    /** The `for ... of` loop of syncAll over the snapshot it read, oldest first. */
    method ReplayActions(st: Store, api: Api, pendingActions: seq<PendingAction>) returns (success: nat, failed: nat)
      modifies st, api
      ensures Tally(st.entries, api.script, success, failed) == RunActions(old(st.entries), old(api.script), pendingActions)
      ensures api.calls == old(api.calls) + Calls(pendingActions)
    {
      ghost var e0, s0, c0 := st.entries, api.script, api.calls;
      success, failed := 0, 0;
      var i := 0;
      while i < |pendingActions|
        invariant 0 <= i <= |pendingActions|
        invariant api.calls == c0 + Calls(pendingActions[..i])
        invariant Tally(st.entries, api.script, success, failed) == RunActions(e0, s0, pendingActions[..i])
      {
        ghost var before := Tally(st.entries, api.script, success, failed);
        ghost var callsBefore := api.calls;
        success, failed := SyncStep(st, api, pendingActions[i], success, failed);
        TallyOneMore(e0, s0, pendingActions, i, before, Tally(st.entries, api.script, success, failed));
        CallsOneMore(c0, pendingActions, i, callsBefore, api.calls);
        i := i + 1;
      }
      assert pendingActions[..|pendingActions|] == pendingActions;
    }

    /**
     * syncAll. A call made while another is running returns zeros and
     * touches nothing; the early return sits before the `try`, so the flag
     * stays set for the running call to clear.
     */
    method SyncAll(st: Store, api: Api) returns (success: nat, failed: nat)
      modifies this, st, api
      ensures old(isSyncing) ==>
        success == 0 && failed == 0 && isSyncing &&
        st.entries == old(st.entries) && api.script == old(api.script) && api.calls == old(api.calls)
      ensures !old(isSyncing) ==>
        !isSyncing &&
        Tally(st.entries, api.script, success, failed) == SyncAllRun(old(st.entries), old(api.script)) &&
        api.calls == old(api.calls) + Calls(GetPendingActions(old(st.entries)))
    {
      if isSyncing {
        return 0, 0;
      }
      isSyncing := true;
      var pendingActions := GetPendingActions(st.entries);
      if |pendingActions| == 0 {
        isSyncing := false;
        return 0, 0;
      }
      success, failed := ReplayActions(st, api, pendingActions);
      StorageCache.ClearTicketsCache(st);
      isSyncing := false;
    }
  }
}
