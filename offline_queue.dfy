/**
 * The SQL action queue (services/OfflineQueue.ts): the `pending_actions`
 * table, with its AUTOINCREMENT ids, attempt counting and the cleanup of
 * actions that failed too often.
 */
module OfflineQueue {
  import opened Wrappers
  import opened JsValues
  import opened Query
  import opened Schema

  /** The threshold cleanupFailedActions uses when called without one. */
  const DefaultMaxAttempts := 5

  /**
   * enqueuePendingAction: a plain INSERT with attempts 0 and createdAt now.
   * AUTOINCREMENT hands out one more than any id it has ever handed out,
   * so the returned id is new even after rows were deleted.
   */
  method EnqueuePendingAction(db: Database, kind: ActionType, entityType: EntityType, entityId: string,
                              data: Payload, env: Env) returns (actionId: nat)
    requires db.Valid()
    modifies db`pendingActions, db`lastActionId
    ensures db.Valid()
    ensures actionId == old(db.lastActionId) + 1 && db.lastActionId == actionId
    ensures forall i :: 0 <= i < |old(db.pendingActions)| ==> old(db.pendingActions)[i].id < actionId
    ensures db.pendingActions
            == old(db.pendingActions) + [QueuedAction(actionId, kind, entityType, entityId, data, env.nowIso, 0, None)]
  {
    actionId := db.lastActionId + 1;
    var row := QueuedAction(actionId, kind, entityType, entityId, data, env.nowIso, 0, None);
    UniqueAppend(db.pendingActions, row, ActionKey);
    db.pendingActions := db.pendingActions + [row];
    db.lastActionId := actionId;
  }

  function QueuedCreatedAt(a: QueuedAction): string { a.createdAt }

  /** `SELECT * FROM pending_actions ORDER BY createdAt ASC` */
  function QueueOrder(rows: seq<QueuedAction>): seq<QueuedAction> {
    OrderBy(rows, QueuedCreatedAt, false)
  }

  /** `... WHERE entityType = ? ORDER BY createdAt ASC` */
  function EntityQueueOrder(rows: seq<QueuedAction>, entityType: EntityType): seq<QueuedAction> {
    OrderBy(Filter(rows, (a: QueuedAction) => a.entityType == entityType), QueuedCreatedAt, false)
  }

  /** The queue read returns every queued action once, oldest first. */
  lemma QueueOrderAll(rows: seq<QueuedAction>)
    ensures multiset(QueueOrder(rows)) == multiset(rows)
    ensures SortedBy(QueueOrder(rows), QueuedCreatedAt, false)
  {
    OrderByPermutation(rows, QueuedCreatedAt, false);
    OrderBySorted(rows, QueuedCreatedAt, false);
  }

  /**
   * The read by entity type is the full queue read restricted to that
   * type: the same actions, in the same relative order.
   */
  lemma EntityQueueIsSubsequence(rows: seq<QueuedAction>, entityType: EntityType)
    ensures EntityQueueOrder(rows, entityType)
            == Filter(QueueOrder(rows), (a: QueuedAction) => a.entityType == entityType)
  {
    OrderByFilter(rows, QueuedCreatedAt, false, (a: QueuedAction) => a.entityType == entityType);
  }

  /** getPendingActions: every queued action, one record each, in createdAt order. */
  method GetPendingActions(db: Database) returns (r: seq<QueuedAction>)
    ensures r == QueueOrder(db.pendingActions)
  {
    var rows := QueueOrder(db.pendingActions);
    r := [];
    var i := 0;
    while i < |rows|
      invariant 0 <= i <= |rows| && r == rows[..i]
    {
      r := r + [rows[i]];
      i := i + 1;
    }
    assert rows[..i] == rows;
  }

  /** getPendingActionsByEntity: the queued actions of one entity type, in createdAt order. */
  method GetPendingActionsByEntity(db: Database, entityType: EntityType) returns (r: seq<QueuedAction>)
    ensures r == EntityQueueOrder(db.pendingActions, entityType)
    ensures forall a :: a in r ==> a in db.pendingActions && a.entityType == entityType
  {
    var rows := EntityQueueOrder(db.pendingActions, entityType);
    r := [];
    var i := 0;
    while i < |rows|
      invariant 0 <= i <= |rows| && r == rows[..i]
    {
      r := r + [rows[i]];
      i := i + 1;
    }
    assert rows[..i] == rows;
    forall a | a in r ensures a in db.pendingActions && a.entityType == entityType {
      var f := Filter(db.pendingActions, (a: QueuedAction) => a.entityType == entityType);
      OrderByMembers(f, QueuedCreatedAt, false);
      var k :| 0 <= k < |f| && f[k] == a;
    }
  }

  /** `DELETE FROM pending_actions WHERE id = ?` */
  function WithoutAction(rows: seq<QueuedAction>, actionId: int): seq<QueuedAction> {
    Filter(rows, (a: QueuedAction) => a.id != actionId)
  }

  /** removePendingAction: only the row with that id goes. */
  method RemovePendingAction(db: Database, actionId: int)
    requires db.Valid()
    modifies db`pendingActions
    ensures db.Valid()
    ensures db.pendingActions == WithoutAction(old(db.pendingActions), actionId)
  {
    FilterUnique(db.pendingActions, (a: QueuedAction) => a.id != actionId, ActionKey);
    db.pendingActions := WithoutAction(db.pendingActions, actionId);
  }

  /** Removing an action keeps every other action, and the removed id is gone. */
  lemma RemoveOnlyThat(rows: seq<QueuedAction>, actionId: int)
    ensures forall a :: a in WithoutAction(rows, actionId) <==> a in rows && a.id != actionId
  {
    var p := (a: QueuedAction) => a.id != actionId;
    forall a | a in rows && p(a) ensures a in Filter(rows, p) {
      var k :| 0 <= k < |rows| && rows[k] == a;
    }
    forall a | a in Filter(rows, p) ensures a in rows && p(a) {
      var k :| 0 <= k < |Filter(rows, p)| && Filter(rows, p)[k] == a;
    }
  }

  /** `attempts = attempts + 1, lastError = ?` */
  function Attempted(a: QueuedAction, error: Option<string>): QueuedAction {
    a.(attempts := a.attempts + 1, lastError := OrNull(error))
  }

  /** `UPDATE pending_actions SET attempts = attempts + 1, lastError = ? WHERE id = ?` */
  function AttemptRecorded(rows: seq<QueuedAction>, actionId: int, error: Option<string>): seq<QueuedAction> {
    MapWhere(rows, (a: QueuedAction) => a.id == actionId, a => Attempted(a, error))
  }

  /** updatePendingActionAttempt: one more attempt and the error (null if absent), on that row only. */
  method UpdatePendingActionAttempt(db: Database, actionId: int, error: Option<string>)
    requires db.Valid()
    modifies db`pendingActions
    ensures db.Valid()
    ensures db.pendingActions == AttemptRecorded(old(db.pendingActions), actionId, error)
  {
    MapWhereKeepsKeys(db.pendingActions, (a: QueuedAction) => a.id == actionId, a => Attempted(a, error), ActionKey);
    db.pendingActions := AttemptRecorded(db.pendingActions, actionId, error);
  }

  /** The attempt counter of the row with that id goes up by exactly one; other rows are untouched. */
  lemma AttemptCountsOne(rows: seq<QueuedAction>, actionId: int, error: Option<string>)
    ensures var after := AttemptRecorded(rows, actionId, error);
      (forall i :: 0 <= i < |rows| && rows[i].id == actionId ==>
         after[i].attempts == rows[i].attempts + 1 && after[i].lastError == OrNull(error)
         && after[i].(attempts := rows[i].attempts, lastError := rows[i].lastError) == rows[i])
      && (forall i :: 0 <= i < |rows| && rows[i].id != actionId ==> after[i] == rows[i])
  {
  }

  /** clearPendingActions: the table is emptied; the AUTOINCREMENT counter is kept. */
  method ClearPendingActions(db: Database)
    requires db.Valid()
    modifies db`pendingActions
    ensures db.Valid()
    ensures db.pendingActions == []
  {
    db.pendingActions := [];
  }

  /** countPendingActions */
  method CountPendingActions(db: Database) returns (count: nat)
    ensures count == |db.pendingActions|
  {
    count := |db.pendingActions|;
  }

  /** `DELETE FROM pending_actions WHERE attempts >= ?` */
  function Survivors(rows: seq<QueuedAction>, maxAttempts: int): seq<QueuedAction> {
    Filter(rows, (a: QueuedAction) => !(a.attempts >= maxAttempts))
  }

  function Exhausted(rows: seq<QueuedAction>, maxAttempts: int): seq<QueuedAction> {
    Filter(rows, (a: QueuedAction) => a.attempts >= maxAttempts)
  }

  /** cleanupFailedActions: deletes exactly the rows at or over the threshold and reports how many. */
  method CleanupFailedActions(db: Database, maxAttempts: int) returns (deleted: nat)
    requires db.Valid()
    modifies db`pendingActions
    ensures db.Valid()
    ensures db.pendingActions == Survivors(old(db.pendingActions), maxAttempts)
    ensures deleted == |Exhausted(old(db.pendingActions), maxAttempts)|
    ensures deleted + |db.pendingActions| == |old(db.pendingActions)|
  {
    FilterCount(db.pendingActions, (a: QueuedAction) => a.attempts >= maxAttempts,
                (a: QueuedAction) => !(a.attempts >= maxAttempts));
    FilterUnique(db.pendingActions, (a: QueuedAction) => !(a.attempts >= maxAttempts), ActionKey);
    deleted := |Exhausted(db.pendingActions, maxAttempts)|;
    db.pendingActions := Survivors(db.pendingActions, maxAttempts);
  }

  /** After the cleanup every remaining action is below the threshold, and every such action remains. */
  lemma CleanupExact(rows: seq<QueuedAction>, maxAttempts: int)
    ensures forall a :: a in Survivors(rows, maxAttempts) <==> a in rows && a.attempts < maxAttempts
  {
    var p := (a: QueuedAction) => !(a.attempts >= maxAttempts);
    forall a | a in rows && p(a) ensures a in Filter(rows, p) {
      var k :| 0 <= k < |rows| && rows[k] == a;
    }
    forall a | a in Filter(rows, p) ensures a in rows && p(a) {
      var k :| 0 <= k < |Filter(rows, p)| && Filter(rows, p)[k] == a;
    }
  }
}
