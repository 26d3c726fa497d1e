/**
 * helpers/ticketStorage.ts: the AsyncStorage cache of the ticket list and
 * of ticket details, the last-sync stamp, the offline action queue and the
 * tickets created offline. Every operation is a method on the store whose
 * new contents are a function of the old; the readers are functions.
 */
module TicketStorage {
  import opened Wrappers
  import opened Text
  import opened JsValues
  import opened Schema
  import opened Query
  import opened KeyValue

  const TicketsListKey := "@ticketeria:tickets_list"
  const TicketDetailsKey := "@ticketeria:ticket_details"
  const LastSyncKey := "@ticketeria:last_sync"
  const PendingActionsKey := "@ticketeria:pending_actions"
  const OfflineTicketsKey := "@ticketeria:offline_tickets"

  /** `${TICKET_DETAILS}:${id}` */
  function DetailKey(id: JsId): string {
    TicketDetailsKey + ":" + IdString(id)
  }

  /** A detail key differs from the four fixed keys. */
  lemma DetailKeyDistinct(id: JsId)
    ensures DetailKey(id) != TicketsListKey && DetailKey(id) != LastSyncKey
    ensures DetailKey(id) != PendingActionsKey && DetailKey(id) != OfflineTicketsKey
    ensures StartsWith(DetailKey(id), TicketDetailsKey)
  {
    var k := DetailKey(id);
    assert k[12] == 't' && k[18] == '_';
    assert k[..|TicketDetailsKey|] == TicketDetailsKey;
  }

  /** Two ids that print alike share one detail entry. */
  lemma DetailKeyOfSameText(a: JsId, b: JsId)
    ensures DetailKey(a) == DetailKey(b) <==> IdString(a) == IdString(b)
  {
    if DetailKey(a) == DetailKey(b) {
      var n := |TicketDetailsKey + ":"|;
      assert IdString(a) == DetailKey(a)[n..];
      assert IdString(b) == DetailKey(b)[n..];
    }
  }

  // ---------------------------------------------------------------------
  // Readers. A missing entry, and one of another shape, read as nothing.

  /** getTicketsFromStorage */
  function GetTicketsFromStorage(e: Entries): Option<CachedList> {
    if TicketsListKey in e && e[TicketsListKey].ListJson? then Some(e[TicketsListKey].list) else None
  }

  /** getTicketDetailsFromStorage */
  function GetTicketDetailsFromStorage(e: Entries, id: JsId): Option<Ticket> {
    var k := DetailKey(id);
    if k in e && e[k].DetailJson? then Some(e[k].ticket) else None
  }

  /** getPendingActions: the queue, or [] when there is none. */
  function GetPendingActions(e: Entries): seq<PendingAction> {
    if PendingActionsKey in e && e[PendingActionsKey].ActionsJson? then e[PendingActionsKey].actions else []
  }

  /** getOfflineTickets: the tickets created offline, or []. */
  function GetOfflineTickets(e: Entries): seq<Ticket> {
    if OfflineTicketsKey in e && e[OfflineTicketsKey].TicketsJson? then e[OfflineTicketsKey].tickets else []
  }

  /** The last-sync stamp's text. */
  function LastSync(e: Entries): Option<string> {
    if LastSyncKey in e && e[LastSyncKey].Text? then Some(e[LastSyncKey].s) else None
  }

  // ---------------------------------------------------------------------
  // The list and detail caches

  /**
   * The two clock readings saveTicketsToStorage takes: `cachedAt` while it
   * builds the list, and `lastSync` after the list has been written.
   */
  datatype ListStamps = ListStamps(cachedAt: string, lastSync: string)

  /** The store after saveTicketsToStorage(data) with the readings `at`. */
  function SavedTickets(e: Entries, data: CachedList, at: ListStamps): (r: Entries)
    ensures GetTicketsFromStorage(r) == Some(data.(cachedAt := Some(at.cachedAt)))
    ensures LastSync(r) == Some(at.lastSync)
    ensures SameOutside(e, r, {TicketsListKey, LastSyncKey})
  {
    e[TicketsListKey := ListJson(data.(cachedAt := Some(at.cachedAt)))][LastSyncKey := Text(at.lastSync)]
  }

  /** saveTicketsToStorage: the list is stamped with `cachedAt`, then LAST_SYNC with a second reading. */
  method SaveTicketsToStorage(st: Store, data: CachedList, at: ListStamps)
    modifies st
    ensures st.entries == SavedTickets(old(st.entries), data, at)
  {
    st.SetItem(TicketsListKey, ListJson(data.(cachedAt := Some(at.cachedAt))));
    st.SetItem(LastSyncKey, Text(at.lastSync));
  }

  /** The store after saveTicketDetailsToStorage(t) at `now`. */
  function SavedDetails(e: Entries, t: Ticket, now: string): (r: Entries)
    ensures GetTicketDetailsFromStorage(r, t.id) == Some(t)
    ensures SameOutside(e, r, {DetailKey(t.id)})
  {
    e[DetailKey(t.id) := DetailJson(t, now)]
  }

  /** saveTicketDetailsToStorage */
  method SaveTicketDetailsToStorage(st: Store, t: Ticket, nowIso: string)
    modifies st
    ensures st.entries == SavedDetails(old(st.entries), t, nowIso)
  {
    st.SetItem(DetailKey(t.id), DetailJson(t, nowIso));
  }

  const DefaultMaxAgeMinutes := 5

  /**
   * isCacheValid(maxAge): the last sync happened less than `maxAge`
   * minutes before `nowMs`. `dateOf` is `new Date(text).getTime()`, None
   * for an invalid date; any comparison with NaN is false.
   */
  function IsCacheValid(e: Entries, nowMs: int, maxAgeMinutes: int, dateOf: string -> Option<int>): bool {
    var stamp := LastSync(e);
    if !Truthy(stamp) then false
    else match dateOf(stamp.value)
      case None => false
      case Some(t) => nowMs - t < maxAgeMinutes * 60000
  }

  /**
   * Right after a save, the cache is valid exactly when the LAST_SYNC
   * reading parses to a time less than maxAge old; `cachedAt` plays no part.
   */
  lemma ValidAfterSave(e: Entries, data: CachedList, at: ListStamps, nowMs: int, maxAge: int, dateOf: string -> Option<int>)
    ensures IsCacheValid(SavedTickets(e, data, at), nowMs, maxAge, dateOf)
        <==> at.lastSync != "" && dateOf(at.lastSync).Some? && nowMs - dateOf(at.lastSync).value < maxAge * 60000
  {
  }

  /** The store after clearTicketsCache. */
  function ClearedTickets(e: Entries): (r: Entries)
    ensures GetTicketsFromStorage(r) == None && LastSync(r) == None
    ensures SameOutside(e, r, {TicketsListKey, LastSyncKey})
    ensures r.Keys <= e.Keys
  {
    e - {TicketsListKey, LastSyncKey}
  }

  /** clearTicketsCache */
  method ClearTicketsCache(st: Store)
    modifies st
    ensures st.entries == ClearedTickets(old(st.entries))
  {
    st.RemoveItem(TicketsListKey);
    st.RemoveItem(LastSyncKey);
  }

  /** Once cleared, the cache is never valid, whatever the clock says. */
  lemma InvalidAfterClear(e: Entries, nowMs: int, maxAge: int, dateOf: string -> Option<int>)
    ensures !IsCacheValid(ClearedTickets(e), nowMs, maxAge, dateOf)
  {
  }

  /** The keys clearAllTicketDetailsCache selects from `getAllKeys()`. */
  function DetailsKeys(e: Entries): set<string> {
    set k | k in e.Keys && StartsWith(k, TicketDetailsKey)
  }

  /** The store after clearAllTicketDetailsCache. */
  function ClearedDetails(e: Entries): (r: Entries)
    ensures SameOutside(e, r, DetailsKeys(e))
    ensures forall k :: k in r ==> !StartsWith(k, TicketDetailsKey)
  {
    e - DetailsKeys(e)
  }

  /** clearAllTicketDetailsCache */
  method ClearAllTicketDetailsCache(st: Store)
    modifies st
    ensures st.entries == ClearedDetails(old(st.entries))
  {
    var detailsKeys := set k | k in st.entries.Keys && StartsWith(k, TicketDetailsKey);
    st.MultiRemove(detailsKeys);
  }

  /** After clearAllTicketDetailsCache no ticket has a cached detail. */
  lemma NoDetailsAfterClear(e: Entries, id: JsId)
    ensures GetTicketDetailsFromStorage(ClearedDetails(e), id) == None
  {
    DetailKeyDistinct(id);
  }

  /** The store after clearAllCache. */
  function ClearedAll(e: Entries): (r: Entries)
    ensures GetTicketsFromStorage(r) == None && LastSync(r) == None
    ensures forall k :: k in r ==> !StartsWith(k, TicketDetailsKey)
    ensures SameOutside(e, r, {TicketsListKey, LastSyncKey} + DetailsKeys(e))
  {
    var r := ClearedDetails(ClearedTickets(e));
    assert DetailsKeys(ClearedTickets(e)) <= DetailsKeys(e);
    r
  }

  /** clearAllCache: the queue and the offline tickets survive it. */
  method ClearAllCache(st: Store)
    modifies st
    ensures st.entries == ClearedAll(old(st.entries))
  {
    ClearTicketsCache(st);
    ClearAllTicketDetailsCache(st);
  }

  /** Clearing every cache leaves the offline queue and the offline tickets as they were. */
  lemma ClearAllKeepsOfflineWork(e: Entries)
    ensures GetPendingActions(ClearedAll(e)) == GetPendingActions(e)
    ensures GetOfflineTickets(ClearedAll(e)) == GetOfflineTickets(e)
  {
    assert !StartsWith(PendingActionsKey, TicketDetailsKey) by {
      assert PendingActionsKey[12] != TicketDetailsKey[12];
    }
    assert !StartsWith(OfflineTicketsKey, TicketDetailsKey) by {
      assert OfflineTicketsKey[12] != TicketDetailsKey[12];
    }
  }

  // ---------------------------------------------------------------------
  // The offline action queue

  /** The entry addPendingAction stores: the caller's fields, a fresh 'offline_' id and `Date.now()`. */
  function NewPendingAction(kind: PendingType, ticketId: Option<JsId>, data: ActionData, localTicketId: Option<string>, env: Env): PendingAction {
    PendingAction(OfflineId(env), kind, ticketId, data, env.nowMs, localTicketId)
  }

  /** The store after appending `a` to the queue. */
  function AddedAction(e: Entries, a: PendingAction): (r: Entries)
    ensures GetPendingActions(r) == GetPendingActions(e) + [a]
    ensures SameOutside(e, r, {PendingActionsKey})
  {
    e[PendingActionsKey := ActionsJson(GetPendingActions(e) + [a])]
  }

  /** addPendingAction: appends the action and returns its id. */
  method AddPendingAction(st: Store, kind: PendingType, ticketId: Option<JsId>, data: ActionData, localTicketId: Option<string>, env: Env)
    returns (actionId: string)
    modifies st
    ensures actionId == OfflineId(env)
    ensures st.entries == AddedAction(old(st.entries), NewPendingAction(kind, ticketId, data, localTicketId, env))
  {
    actionId := OfflineId(env);
    var pendingAction := PendingAction(actionId, kind, ticketId, data, env.nowMs, localTicketId);
    var existingActions := GetPendingActions(st.entries);
    st.SetItem(PendingActionsKey, ActionsJson(existingActions + [pendingAction]));
  }

  /** The store after removePendingAction(actionId): the queue is always written back, even when nothing matched. */
  function RemovedAction(e: Entries, actionId: string): (r: Entries)
    ensures GetPendingActions(r) == Filter(GetPendingActions(e), (a: PendingAction) => a.id != actionId)
    ensures PendingActionsKey in r
    ensures SameOutside(e, r, {PendingActionsKey})
  {
    e[PendingActionsKey := ActionsJson(Filter(GetPendingActions(e), (a: PendingAction) => a.id != actionId))]
  }

  /** removePendingAction */
  method RemovePendingAction(st: Store, actionId: string)
    modifies st
    ensures st.entries == RemovedAction(old(st.entries), actionId)
  {
    var actions := GetPendingActions(st.entries);
    var filtered := Filter(actions, (a: PendingAction) => a.id != actionId);
    st.SetItem(PendingActionsKey, ActionsJson(filtered));
  }

  /** An action survives removePendingAction(actionId) exactly when it was queued under another id. */
  lemma RemoveDropsExactly(e: Entries, actionId: string, a: PendingAction)
    ensures a in GetPendingActions(RemovedAction(e, actionId)) <==> a in GetPendingActions(e) && a.id != actionId
  {
    var s := GetPendingActions(e);
    if a in s && a.id != actionId {
      var i :| 0 <= i < |s| && s[i] == a;
      assert ((x: PendingAction) => x.id != actionId)(s[i]);
    }
  }

  /** Appending an action and removing it by its id restores the queue, when no queued action held that id. */
  lemma AddThenRemove(e: Entries, a: PendingAction)
    requires forall b :: b in GetPendingActions(e) ==> b.id != a.id
    ensures GetPendingActions(RemovedAction(AddedAction(e, a), a.id)) == GetPendingActions(e)
  {
    var s := GetPendingActions(e);
    var p := (x: PendingAction) => x.id != a.id;
    assert (s + [a])[..|s|] == s;
    FilterAll(s, p);
  }

  /** The store after clearPendingActions. */
  function ClearedActions(e: Entries): (r: Entries)
    ensures GetPendingActions(r) == [] && PendingActionsKey !in r
    ensures SameOutside(e, r, {PendingActionsKey})
  {
    e - {PendingActionsKey}
  }

  /** clearPendingActions */
  method ClearPendingActions(st: Store)
    modifies st
    ensures st.entries == ClearedActions(old(st.entries))
  {
    st.RemoveItem(PendingActionsKey);
  }

  // ---------------------------------------------------------------------
  // Tickets created offline

  /** The store after saveOfflineTicket(t): appended to the offline list and cached as a detail. */
  function SavedOffline(e: Entries, t: Ticket, now: string): (r: Entries)
    ensures GetOfflineTickets(r) == GetOfflineTickets(e) + [t]
    ensures GetTicketDetailsFromStorage(r, t.id) == Some(t)
    ensures SameOutside(e, r, {OfflineTicketsKey, DetailKey(t.id)})
  {
    DetailKeyDistinct(t.id);
    SavedDetails(e[OfflineTicketsKey := TicketsJson(GetOfflineTickets(e) + [t])], t, now)
  }

  /** saveOfflineTicket */
  method SaveOfflineTicket(st: Store, t: Ticket, nowIso: string)
    modifies st
    ensures st.entries == SavedOffline(old(st.entries), t, nowIso)
  {
    var offlineTickets := GetOfflineTickets(st.entries);
    st.SetItem(OfflineTicketsKey, TicketsJson(offlineTickets + [t]));
    SaveTicketDetailsToStorage(st, t, nowIso);
  }

  /** `findIndex(t => String(t.id) === String(id))`, None for -1. */
  function FindById(ts: seq<Ticket>, id: JsId): (r: Option<nat>)
    ensures r.Some? ==> r.value < |ts| && IdString(ts[r.value].id) == IdString(id)
    ensures r.Some? ==> forall j :: 0 <= j < r.value ==> IdString(ts[j].id) != IdString(id)
    ensures r.None? ==> forall j :: 0 <= j < |ts| ==> IdString(ts[j].id) != IdString(id)
  {
    if ts == [] then None
    else if IdString(ts[0].id) == IdString(id) then Some(0)
    else match FindById(ts[1..], id)
      case None => None
      case Some(i) => Some(i + 1)
  }

  /** `j` is the first position whose ticket prints as `id`. */
  predicate FirstMatch(ts: seq<Ticket>, id: JsId, j: int) {
    0 <= j < |ts| && IdString(ts[j].id) == IdString(id)
    && forall k :: 0 <= k < j ==> IdString(ts[k].id) != IdString(id)
  }

  /** `list[index] = { ...list[index], ...updates }` at the first match, when there is one. */
  function UpdateFirst(ts: seq<Ticket>, id: JsId, u: Patch): (r: seq<Ticket>)
    ensures |r| == |ts|
    ensures forall j :: 0 <= j < |ts| ==> r[j] == if FirstMatch(ts, id, j) then Merge(ts[j], u) else ts[j]
  {
    match FindById(ts, id)
    case None => ts
    case Some(i) => ts[i := Merge(ts[i], u)]
  }

  /** The offline list after the first step of updateOfflineTicket: written back only when the ticket is there. */
  function UpdatedOfflineList(e: Entries, id: JsId, u: Patch): (r: Entries)
    ensures GetOfflineTickets(r) == UpdateFirst(GetOfflineTickets(e), id, u)
    ensures SameOutside(e, r, {OfflineTicketsKey})
  {
    if FindById(GetOfflineTickets(e), id).Some? then e[OfflineTicketsKey := TicketsJson(UpdateFirst(GetOfflineTickets(e), id, u))]
    else e
  }

  /** The second step: the cached detail read under `id` is merged and saved under its own id. */
  function UpdatedDetail(e: Entries, id: JsId, u: Patch, now: string): Entries {
    match GetTicketDetailsFromStorage(e, id)
    case None => e
    case Some(x) => SavedDetails(e, Merge(x, u), now)
  }

  /** The third step: a cached list holding the ticket is merged and saved again, restamping LAST_SYNC. */
  function UpdatedList(e: Entries, id: JsId, u: Patch, listAt: ListStamps): Entries {
    match GetTicketsFromStorage(e)
    case None => e
    case Some(l) => if FindById(l.data, id).Some? then SavedTickets(e, l.(data := UpdateFirst(l.data, id, u)), listAt) else e
  }

  /**
   * The store after updateOfflineTicket(id, updates): `now` is the reading
   * of the detail save, `listAt` the two of the list save.
   */
  function UpdatedOffline(e: Entries, id: JsId, u: Patch, now: string, listAt: ListStamps): Entries {
    UpdatedList(UpdatedDetail(UpdatedOfflineList(e, id, u), id, u, now), id, u, listAt)
  }

  /** updateOfflineTicket */
  method UpdateOfflineTicket(st: Store, ticketId: JsId, u: Patch, nowIso: string, listAt: ListStamps)
    modifies st
    ensures st.entries == UpdatedOffline(old(st.entries), ticketId, u, nowIso, listAt)
  {
    var offlineTickets := GetOfflineTickets(st.entries);
    var index := FindById(offlineTickets, ticketId);
    if index.Some? {
      st.SetItem(OfflineTicketsKey, TicketsJson(offlineTickets[index.value := Merge(offlineTickets[index.value], u)]));
    }
    var existingTicket := GetTicketDetailsFromStorage(st.entries, ticketId);
    if existingTicket.Some? {
      SaveTicketDetailsToStorage(st, Merge(existingTicket.value, u), nowIso);
    }
    var cachedList := GetTicketsFromStorage(st.entries);
    if cachedList.Some? {
      var l := cachedList.value;
      var listIndex := FindById(l.data, ticketId);
      if listIndex.Some? {
        SaveTicketsToStorage(st, l.(data := l.data[listIndex.value := Merge(l.data[listIndex.value], u)]), listAt);
      }
    }
  }

  /** updateOfflineTicket merges the update into the first matching offline ticket and into no other. */
  lemma UpdateOfflineList(e: Entries, id: JsId, u: Patch, now: string, listAt: ListStamps)
    ensures GetOfflineTickets(UpdatedOffline(e, id, u, now, listAt)) == UpdateFirst(GetOfflineTickets(e), id, u)
  {
    var e1 := UpdatedOfflineList(e, id, u);
    var e2 := UpdatedDetail(e1, id, u, now);
    match GetTicketDetailsFromStorage(e1, id) {
      case None =>
      case Some(x) => DetailKeyDistinct(x.id);
    }
    assert GetOfflineTickets(e2) == GetOfflineTickets(e1);
  }

  /** updateOfflineTicket leaves the action queue alone. */
  lemma UpdateOfflineQueue(e: Entries, id: JsId, u: Patch, now: string, listAt: ListStamps)
    ensures GetPendingActions(UpdatedOffline(e, id, u, now, listAt)) == GetPendingActions(e)
  {
    var e1 := UpdatedOfflineList(e, id, u);
    var e2 := UpdatedDetail(e1, id, u, now);
    match GetTicketDetailsFromStorage(e1, id) {
      case None =>
      case Some(x) => DetailKeyDistinct(x.id);
    }
    assert GetPendingActions(e2) == GetPendingActions(e1);
    assert GetPendingActions(UpdatedList(e2, id, u, listAt)) == GetPendingActions(e2);
  }

  /** A cached detail stored under the ticket's own id afterwards holds the merged ticket. */
  lemma UpdateOfflineDetail(e: Entries, id: JsId, u: Patch, now: string, listAt: ListStamps)
    requires GetTicketDetailsFromStorage(e, id).Some?
    requires IdString(GetTicketDetailsFromStorage(e, id).value.id) == IdString(id)
    ensures GetTicketDetailsFromStorage(UpdatedOffline(e, id, u, now, listAt), id) == Some(Merge(GetTicketDetailsFromStorage(e, id).value, u))
  {
    var x := GetTicketDetailsFromStorage(e, id).value;
    var e1 := UpdatedOfflineList(e, id, u);
    DetailKeyDistinct(id);
    assert GetTicketDetailsFromStorage(e1, id) == Some(x);
    DetailKeyOfSameText(x.id, id);
    var e2 := UpdatedDetail(e1, id, u, now);
    assert GetTicketDetailsFromStorage(e2, id) == Some(Merge(x, u));
  }

  /**
   * When the cached list holds the ticket, updateOfflineTicket rewrites it
   * there too and restamps LAST_SYNC, so isCacheValid turns true though
   * nothing reached the server.
   */
  lemma UpdateOfflineRestampsList(e: Entries, id: JsId, u: Patch, now: string, listAt: ListStamps)
    requires GetTicketsFromStorage(e).Some? && FindById(GetTicketsFromStorage(e).value.data, id).Some?
    ensures GetTicketsFromStorage(UpdatedOffline(e, id, u, now, listAt)).Some?
    ensures GetTicketsFromStorage(UpdatedOffline(e, id, u, now, listAt)).value.data == UpdateFirst(GetTicketsFromStorage(e).value.data, id, u)
    ensures GetTicketsFromStorage(UpdatedOffline(e, id, u, now, listAt)).value.cachedAt == Some(listAt.cachedAt)
    ensures LastSync(UpdatedOffline(e, id, u, now, listAt)) == Some(listAt.lastSync)
  {
    var e1 := UpdatedOfflineList(e, id, u);
    var e2 := UpdatedDetail(e1, id, u, now);
    match GetTicketDetailsFromStorage(e1, id) {
      case None =>
      case Some(x) => DetailKeyDistinct(x.id);
    }
    assert GetTicketsFromStorage(e2) == GetTicketsFromStorage(e);
  }

  /** The store after removeOfflineTicket(localId): the list is always written back. */
  function RemovedOffline(e: Entries, localId: string): (r: Entries)
    ensures GetOfflineTickets(r) == Filter(GetOfflineTickets(e), (t: Ticket) => IdString(t.id) != localId)
    ensures OfflineTicketsKey in r
    ensures SameOutside(e, r, {OfflineTicketsKey})
  {
    e[OfflineTicketsKey := TicketsJson(Filter(GetOfflineTickets(e), (t: Ticket) => IdString(t.id) != localId))]
  }

  /** removeOfflineTicket */
  method RemoveOfflineTicket(st: Store, localId: string)
    modifies st
    ensures st.entries == RemovedOffline(old(st.entries), localId)
  {
    var offlineTickets := GetOfflineTickets(st.entries);
    st.SetItem(OfflineTicketsKey, TicketsJson(Filter(offlineTickets, (t: Ticket) => IdString(t.id) != localId)));
  }

  /** removeOfflineTicket leaves the ticket's cached detail in place. */
  lemma RemoveOfflineKeepsDetail(e: Entries, localId: string, id: JsId)
    ensures GetTicketDetailsFromStorage(RemovedOffline(e, localId), id) == GetTicketDetailsFromStorage(e, id)
  {
    DetailKeyDistinct(id);
  }

  /** A ticket saved offline and then removed by its own id is gone from the offline list; the others stay. */
  lemma SaveThenRemoveOffline(e: Entries, t: Ticket, now: string, other: Ticket)
    ensures t !in GetOfflineTickets(RemovedOffline(SavedOffline(e, t, now), IdString(t.id)))
    ensures other in GetOfflineTickets(e) && IdString(other.id) != IdString(t.id)
        ==> other in GetOfflineTickets(RemovedOffline(SavedOffline(e, t, now), IdString(t.id)))
  {
    var s := GetOfflineTickets(e) + [t];
    if other in GetOfflineTickets(e) && IdString(other.id) != IdString(t.id) {
      var i :| 0 <= i < |GetOfflineTickets(e)| && GetOfflineTickets(e)[i] == other;
      assert s[i] == other;
    }
  }

  /** isOfflineTicket: the id prints with the 'offline_' prefix. */
  predicate IsOfflineTicket(id: JsId) {
    StartsWith(IdString(id), "offline_")
  }

  /** Every id minted by the offline id generator is recognised as offline. */
  lemma OfflineIdIsOffline(env: Env)
    ensures IsOfflineTicket(Str(OfflineId(env)))
  {
    assert OfflineId(env)[..8] == "offline_";
  }

  /** A numeric server id is never taken for an offline one. */
  lemma ServerIdNotOffline(n: int)
    ensures !IsOfflineTicket(Num(n))
  {
    var s := IntToString(n);
    assert s[0] == '-' || IsDigit(s[0]);
    if |s| >= 8 {
      assert s[..8][0] == s[0];
    }
  }
}
