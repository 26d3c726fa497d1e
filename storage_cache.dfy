/**
 * helpers/AsyncStorageCache.ts: the second AsyncStorage cache, used by the
 * hooks. It shares the list key and the last-sync key with ticketStorage
 * but keeps ticket details under its own prefix, and stores the last sync
 * as `Date.now().toString()` where ticketStorage stores an ISO date.
 */
module StorageCache {
  import opened Wrappers
  import opened Text
  import opened JsValues
  import opened Schema
  import opened KeyValue
  import TicketStorage

  const TicketsListKey := "@ticketeria:tickets_list"
  const TicketDetailPrefix := "@ticketeria:ticket_detail:"
  const UserPreferencesKey := "@ticketeria:user_preferences"
  const LastSyncKey := "@ticketeria:last_sync"

  /** `${TICKET_DETAIL}${ticketId}` */
  function DetailKey(id: JsId): string {
    TicketDetailPrefix + IdString(id)
  }

  /** The two helpers name the same list and last-sync entries. */
  lemma SharedKeys()
    ensures TicketsListKey == TicketStorage.TicketsListKey
    ensures LastSyncKey == TicketStorage.LastSyncKey
  {
  }

  /** The detail entries of the two helpers never collide, and neither clear removes the other's. */
  lemma DetailKeysApart(a: JsId, b: JsId)
    ensures DetailKey(a) != TicketStorage.DetailKey(b)
    ensures !StartsWith(DetailKey(a), TicketStorage.TicketDetailsKey)
    ensures !StartsWith(TicketStorage.DetailKey(b), TicketDetailPrefix)
  {
    var mine := DetailKey(a);
    var theirs := TicketStorage.DetailKey(b);
    assert mine[25] == ':' && theirs[25] == 's';
    assert TicketStorage.TicketDetailsKey[25] == 's';
    assert |TicketStorage.TicketDetailsKey| <= |mine| ==> mine[..|TicketStorage.TicketDetailsKey|][25] == mine[25];
    assert |TicketDetailPrefix| <= |theirs| ==> theirs[..|TicketDetailPrefix|][25] == theirs[25];
  }

  /** A detail key begins with the detail prefix, character by character. */
  lemma DetailKeyStarts(id: JsId)
    ensures |DetailKey(id)| >= |TicketDetailPrefix| && DetailKey(id)[..|TicketDetailPrefix|] == TicketDetailPrefix
    ensures forall i :: 0 <= i < |TicketDetailPrefix| ==> DetailKey(id)[i] == TicketDetailPrefix[i]
  {
  }

  /** A detail key differs from the fixed keys, the other helper's included. */
  lemma DetailKeyDistinct(id: JsId)
    ensures DetailKey(id) != TicketsListKey && DetailKey(id) != LastSyncKey && DetailKey(id) != UserPreferencesKey
    ensures DetailKey(id) != TicketStorage.PendingActionsKey && DetailKey(id) != TicketStorage.OfflineTicketsKey
    ensures StartsWith(DetailKey(id), TicketDetailPrefix)
  {
    var k := DetailKey(id);
    DetailKeyStarts(id);
    assert k[12] == 't' && k[18] == '_';
    assert TicketsListKey[18] == 's' && LastSyncKey[12] == 'l' && UserPreferencesKey[12] == 'u';
    assert TicketStorage.PendingActionsKey[12] == 'p' && TicketStorage.OfflineTicketsKey[12] == 'o';
  }

  // ---------------------------------------------------------------------
  // Readers

  /** loadTicketsList */
  function LoadTicketsList(e: Entries): Option<CachedList> {
    if TicketsListKey in e && e[TicketsListKey].ListJson? then Some(e[TicketsListKey].list) else None
  }

  /** loadTicketDetail: the `ticket` member of the stored entry. */
  function LoadTicketDetail(e: Entries, id: JsId): Option<Ticket> {
    var k := DetailKey(id);
    if k in e && e[k].CachedDetailJson? then Some(e[k].ticket) else None
  }

  /** loadUserPreferences */
  function LoadUserPreferences(e: Entries): Option<Preferences> {
    if UserPreferencesKey in e && e[UserPreferencesKey].PrefsJson? then Some(e[UserPreferencesKey].prefs) else None
  }

  /** What getLastSync resolves to: null, a number, or NaN. */
  datatype LastSyncValue = Missing | Value(ms: int) | NaN

  /** getLastSync: `parseInt(stamp, 10)` of a non-empty stamp. */
  function GetLastSync(e: Entries): LastSyncValue {
    if LastSyncKey in e && e[LastSyncKey].Text? && e[LastSyncKey].s != "" then
      match ParseIntDecimal(e[LastSyncKey].s)
      case None => NaN
      case Some(n) => Value(n)
    else Missing
  }

  // ---------------------------------------------------------------------
  // Writers

  /** The store after saveTicketsList(data) at `nowMs`. */
  function SavedList(e: Entries, data: CachedList, nowMs: int): (r: Entries)
    ensures LoadTicketsList(r) == Some(data.(timestamp := Some(nowMs)))
    ensures SameOutside(e, r, {TicketsListKey})
  {
    e[TicketsListKey := ListJson(data.(timestamp := Some(nowMs)))]
  }

  /** saveTicketsList: the list is stamped with `Date.now()`. */
  method SaveTicketsList(st: Store, data: CachedList, nowMs: int)
    modifies st
    ensures st.entries == SavedList(old(st.entries), data, nowMs)
  {
    st.SetItem(TicketsListKey, ListJson(data.(timestamp := Some(nowMs))));
  }

  /** The list one helper saves is the list the other reads, each stamp left as the other wrote it. */
  lemma ListSharedBetweenHelpers(e: Entries, data: CachedList, nowMs: int, at: TicketStorage.ListStamps)
    ensures TicketStorage.GetTicketsFromStorage(SavedList(e, data, nowMs)) == Some(data.(timestamp := Some(nowMs)))
    ensures LoadTicketsList(TicketStorage.SavedTickets(e, data, at)) == Some(data.(cachedAt := Some(at.cachedAt)))
  {
  }

  /** The store after saveTicketDetail(id, t) at `nowMs`: stored under the id given, not under `t.id`. */
  function SavedDetail(e: Entries, id: JsId, t: Ticket, nowMs: int): (r: Entries)
    ensures LoadTicketDetail(r, id) == Some(t)
    ensures SameOutside(e, r, {DetailKey(id)})
  {
    e[DetailKey(id) := CachedDetailJson(t, nowMs)]
  }

  /** saveTicketDetail */
  method SaveTicketDetail(st: Store, id: JsId, t: Ticket, nowMs: int)
    modifies st
    ensures st.entries == SavedDetail(old(st.entries), id, t, nowMs)
  {
    st.SetItem(DetailKey(id), CachedDetailJson(t, nowMs));
  }

  /** The store after saveUserPreferences(p). */
  function SavedPreferences(e: Entries, p: Preferences): (r: Entries)
    ensures LoadUserPreferences(r) == Some(p)
    ensures SameOutside(e, r, {UserPreferencesKey})
  {
    e[UserPreferencesKey := PrefsJson(p)]
  }

  /** saveUserPreferences */
  method SaveUserPreferences(st: Store, p: Preferences)
    modifies st
    ensures st.entries == SavedPreferences(old(st.entries), p)
  {
    st.SetItem(UserPreferencesKey, PrefsJson(p));
  }

  /** The detail keys clearTicketsCache selects from `getAllKeys()`. */
  function DetailKeys(e: Entries): set<string> {
    set k | k in e.Keys && StartsWith(k, TicketDetailPrefix)
  }

  /** The store after clearTicketsCache: the list and every detail of this helper; LAST_SYNC stays. */
  function ClearedCache(e: Entries): (r: Entries)
    ensures LoadTicketsList(r) == None
    ensures forall k :: k in r ==> !StartsWith(k, TicketDetailPrefix)
    ensures SameOutside(e, r, {TicketsListKey} + DetailKeys(e))
  {
    var e1 := e - {TicketsListKey};
    var r := e1 - DetailKeys(e1);
    assert DetailKeys(e1) <= DetailKeys(e);
    r
  }

  /** clearTicketsCache */
  method ClearTicketsCache(st: Store)
    modifies st
    ensures st.entries == ClearedCache(old(st.entries))
  {
    st.RemoveItem(TicketsListKey);
    var ticketDetailKeys := set k | k in st.entries.Keys && StartsWith(k, TicketDetailPrefix);
    if |ticketDetailKeys| > 0 {
      st.MultiRemove(ticketDetailKeys);
    }
  }

  /** After clearTicketsCache no ticket has a detail in this cache. */
  lemma NoDetailAfterClear(e: Entries, id: JsId)
    ensures LoadTicketDetail(ClearedCache(e), id) == None
  {
    DetailKeyDistinct(id);
  }

  /** An entry outside the list and this helper's details survives clearTicketsCache. */
  lemma ClearCacheKeeps(e: Entries, k: string)
    requires k != TicketsListKey && !StartsWith(k, TicketDetailPrefix)
    ensures k in ClearedCache(e) <==> k in e
    ensures k in e ==> ClearedCache(e)[k] == e[k]
  {
  }

  /**
   * clearTicketsCache also drops ticketStorage's copy of the list (the key
   * is shared) but keeps ticketStorage's detail entries, its last-sync
   * stamp, its queue and its offline tickets.
   */
  lemma ClearCacheAcrossHelpers(e: Entries, id: JsId)
    ensures TicketStorage.GetTicketsFromStorage(ClearedCache(e)) == None
    ensures TicketStorage.GetTicketDetailsFromStorage(ClearedCache(e), id) == TicketStorage.GetTicketDetailsFromStorage(e, id)
    ensures TicketStorage.LastSync(ClearedCache(e)) == TicketStorage.LastSync(e)
    ensures TicketStorage.GetPendingActions(ClearedCache(e)) == TicketStorage.GetPendingActions(e)
    ensures TicketStorage.GetOfflineTickets(ClearedCache(e)) == TicketStorage.GetOfflineTickets(e)
  {
    DetailKeysApart(id, id);
    TicketStorage.DetailKeyDistinct(id);
    ClearCacheKeeps(e, TicketStorage.DetailKey(id));
    assert LastSyncKey[12] != TicketDetailPrefix[12];
    ClearCacheKeeps(e, LastSyncKey);
    assert TicketStorage.PendingActionsKey[12] != TicketDetailPrefix[12];
    ClearCacheKeeps(e, TicketStorage.PendingActionsKey);
    assert TicketStorage.OfflineTicketsKey[12] != TicketDetailPrefix[12];
    ClearCacheKeeps(e, TicketStorage.OfflineTicketsKey);
  }

  /** Conversely, ticketStorage's clearAllTicketDetailsCache keeps this cache's details. */
  lemma TicketStorageClearKeepsCacheDetails(e: Entries, id: JsId)
    ensures LoadTicketDetail(TicketStorage.ClearedDetails(e), id) == LoadTicketDetail(e, id)
  {
    DetailKeysApart(id, id);
  }

  /** The store after clearTicketDetail(id). */
  function ClearedDetail(e: Entries, id: JsId): (r: Entries)
    ensures LoadTicketDetail(r, id) == None
    ensures SameOutside(e, r, {DetailKey(id)})
  {
    e - {DetailKey(id)}
  }

  /** clearTicketDetail */
  method ClearTicketDetail(st: Store, id: JsId)
    modifies st
    ensures st.entries == ClearedDetail(old(st.entries), id)
  {
    st.RemoveItem(DetailKey(id));
  }

  /** The store after updateLastSync at `nowMs`. */
  function UpdatedLastSync(e: Entries, nowMs: nat): (r: Entries)
    ensures GetLastSync(r) == Value(nowMs)
    ensures SameOutside(e, r, {LastSyncKey})
  {
    var stamp := NatToString(nowMs);
    StampReadBack(e, stamp, nowMs);
    e[LastSyncKey := Text(stamp)]
  }

  /** A printed clock written under the last-sync key is what getLastSync parses. */
  lemma StampReadBack(e: Entries, stamp: string, n: nat)
    requires stamp == NatToString(n)
    ensures GetLastSync(e[LastSyncKey := Text(stamp)]) == Value(n)
  {
    ParseIntDecimalOfNat(n);
    var r := e[LastSyncKey := Text(stamp)];
    assert LastSyncKey in r && r[LastSyncKey] == Text(stamp) && stamp != "";
  }

  /** updateLastSync: `Date.now().toString()` */
  method UpdateLastSync(st: Store, nowMs: nat)
    modifies st
    ensures st.entries == UpdatedLastSync(old(st.entries), nowMs)
  {
    st.SetItem(LastSyncKey, Text(NatToString(nowMs)));
  }

  /**
   * After ticketStorage writes its ISO stamp to the shared key, getLastSync
   * reads only the year: parseInt stops at the first '-'.
   */
  lemma LastSyncAfterIsoStamp(e: Entries, data: CachedList, cachedAt: string, year: nat, rest: string)
    ensures GetLastSync(TicketStorage.SavedTickets(e, data, TicketStorage.ListStamps(cachedAt, NatToString(year) + ("-" + rest)))) == Value(year)
  {
    var stamp := NatToString(year) + ("-" + rest);
    ParseIntDecimalOfNatPrefix(year, "-" + rest);
    var r := TicketStorage.SavedTickets(e, data, TicketStorage.ListStamps(cachedAt, stamp));
    assert r[LastSyncKey] == Text(stamp);
  }

  // ---------------------------------------------------------------------
  // Staleness

  const DefaultMaxAgeMinutes := 5

  /** isCacheStale(ts, maxAge): more than `maxAge` minutes have passed since `ts`. */
  function IsCacheStale(nowMs: int, cacheTimestamp: int, maxAgeMinutes: int): bool {
    (nowMs - cacheTimestamp) > maxAgeMinutes * 60000
  }

  /**
   * The two freshness tests are not complements: at an age of exactly
   * `maxAge` minutes the cache is neither valid for ticketStorage nor
   * stale for this helper.
   */
  lemma FreshnessGap(e: Entries, nowMs: int, maxAge: int, dateOf: string -> Option<int>)
    requires TicketStorage.LastSync(e).Some? && TicketStorage.LastSync(e).value != ""
    requires dateOf(TicketStorage.LastSync(e).value).Some?
    requires nowMs - dateOf(TicketStorage.LastSync(e).value).value == maxAge * 60000
    ensures !TicketStorage.IsCacheValid(e, nowMs, maxAge, dateOf)
    ensures !IsCacheStale(nowMs, dateOf(TicketStorage.LastSync(e).value).value, maxAge)
  {
  }

  /** Away from that boundary, exactly one of them holds. */
  lemma FreshnessComplement(e: Entries, nowMs: int, maxAge: int, dateOf: string -> Option<int>)
    requires TicketStorage.LastSync(e).Some? && TicketStorage.LastSync(e).value != ""
    requires dateOf(TicketStorage.LastSync(e).value).Some?
    requires nowMs - dateOf(TicketStorage.LastSync(e).value).value != maxAge * 60000
    ensures TicketStorage.IsCacheValid(e, nowMs, maxAge, dateOf)
        <==> !IsCacheStale(nowMs, dateOf(TicketStorage.LastSync(e).value).value, maxAge)
  {
  }
}
