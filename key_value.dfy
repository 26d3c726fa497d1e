/**
 * AsyncStorage as the two storage helpers use it: one string-keyed map of
 * JSON documents. A JSON round trip is the identity, so each entry holds
 * the value that was stringified, tagged with the shape its writer gave it.
 */
module KeyValue {
  import opened Wrappers
  import opened JsValues
  import opened Schema

  /** `PendingAction.type`; anything else read back from storage is `OtherType`. */
  datatype PendingType = CreateType | UpdateType | UpdateStatusType | AddCommentType | OtherType(name: string)

  /** An entry of the AsyncStorage action queue. */
  datatype PendingAction = PendingAction(
    id: string, kind: PendingType, ticketId: Option<JsId>, data: ActionData,
    timestamp: int, localTicketId: Option<string>)

  /**
   * The cached ticket list. Both helpers write it under the same key:
   * ticketStorage adds `cachedAt`, AsyncStorageCache replaces `timestamp`.
   */
  datatype CachedList = CachedList(
    data: seq<Ticket>, total: int, page: int, limit: int, totalPages: int,
    timestamp: Option<int>, cachedAt: Option<string>)

  datatype Preferences = Preferences(defaultFilter: Option<string>, defaultSort: Option<string>, pageSize: Option<int>)

  /** One stored document. */
  datatype Stored =
    | ListJson(list: CachedList)
      /** ticketStorage's detail entry: `{ ...ticket, cachedAt }`. */
    | DetailJson(ticket: Ticket, cachedAt: string)
      /** AsyncStorageCache's detail entry: `{ ticket, timestamp }`. */
    | CachedDetailJson(ticket: Ticket, timestamp: int)
    | ActionsJson(actions: seq<PendingAction>)
    | TicketsJson(tickets: seq<Ticket>)
    | PrefsJson(prefs: Preferences)
      /** A plain string: the last-sync stamp. */
    | Text(s: string)

  /** The whole of AsyncStorage at one moment. */
  type Entries = map<string, Stored>

  /** `b` holds exactly what `a` holds under every key outside `touched`. */
  ghost predicate SameOutside(a: Entries, b: Entries, touched: set<string>) {
    forall k :: k !in touched ==> (k in a <==> k in b) && (k in a ==> a[k] == b[k])
  }

  /** The device's AsyncStorage. */
  class Store {
    var entries: Entries

    /** A fresh install: nothing stored. */
    constructor ()
      ensures entries == map[]
    {
      entries := map[];
    }

    /** `AsyncStorage.setItem(key, JSON.stringify(v))` */
    method SetItem(key: string, v: Stored)
      modifies this
      ensures entries == old(entries)[key := v]
    {
      entries := entries[key := v];
    }

    /** `AsyncStorage.removeItem(key)` */
    method RemoveItem(key: string)
      modifies this
      ensures entries == old(entries) - {key}
    {
      entries := entries - {key};
    }

    /** `AsyncStorage.multiRemove(keys)` */
    method MultiRemove(keys: set<string>)
      modifies this
      ensures entries == old(entries) - keys
    {
      entries := entries - keys;
    }
  }
}
