/**
 * hooks/tickets/keys.ts: the React Query keys of the ticket queries, and
 * the prefix matching by which hooks/tickets/useInvalidateTickets.ts
 * invalidates them. Every key starts with ['tickets']; list keys continue
 * with 'list' and the parameters, detail keys with 'detail' and the id.
 */
module QueryKeys {
  import opened Wrappers

  /** `ListTicketsParams` */
  datatype ListParams = ListParams(page: Option<int>, limit: Option<int>, status: Option<string>, search: Option<string>, sort: Option<string>)

  /** One element of a key: a string, or the parameters object of a list query. */
  datatype KeyPart = Word(s: string) | Params(p: ListParams)

  type Key = seq<KeyPart>

  /** `ticketKeys.all` */
  const All: Key := [Word("tickets")]

  /** `ticketKeys.lists()` */
  function Lists(): Key {
    All + [Word("list")]
  }

  /** `ticketKeys.list(params)` */
  function List(params: ListParams): Key {
    Lists() + [Params(params)]
  }

  /** `ticketKeys.details()` */
  function Details(): Key {
    All + [Word("detail")]
  }

  /** `ticketKeys.detail(id)` */
  function Detail(id: string): Key {
    Details() + [Word(id)]
  }

  /**
   * `invalidateQueries({ queryKey: filter })` reaches `key` when `filter`
   * is a prefix of it. The filters here hold only strings, which match by
   * equality, so partial matching is prefix matching.
   */
  predicate Reaches(filter: Key, key: Key) {
    filter <= key
  }

  /** A key `list(params)` produces. */
  predicate IsListKey(key: Key) {
    |key| == 3 && key[..2] == Lists() && key[2].Params?
  }

  /** A key `detail(id)` produces. */
  predicate IsDetailKey(key: Key) {
    |key| == 3 && key[..2] == Details() && key[2].Word?
  }

  // ---------------------------------------------------------------------
  // Properties

  /** The builders' shapes: each key extends its family's key by one element. */
  lemma Shapes(params: ListParams, id: string)
    ensures Lists() == [Word("tickets"), Word("list")] && List(params) == [Word("tickets"), Word("list"), Params(params)]
    ensures Details() == [Word("tickets"), Word("detail")] && Detail(id) == [Word("tickets"), Word("detail"), Word(id)]
  {
  }

  /** invalidateAll reaches every list and every detail. */
  lemma AllReachesEverything(params: ListParams, id: string)
    ensures Reaches(All, Lists()) && Reaches(All, List(params)) && Reaches(All, Details()) && Reaches(All, Detail(id))
  {
  }

  /** The builders produce exactly the keys of the two shapes. */
  lemma BuildersMakeShapes(params: ListParams, id: string, key: Key)
    ensures IsListKey(List(params)) && IsDetailKey(Detail(id))
    ensures IsListKey(key) ==> key == List(key[2].p)
    ensures IsDetailKey(key) ==> key == Detail(key[2].s)
    ensures !(IsListKey(key) && IsDetailKey(key))
  {
    assert List(params)[..2] == Lists();
    assert Detail(id)[..2] == Details();
  }

  /** invalidateLists reaches every list and no detail. */
  lemma ListsReachOnlyLists(key: Key)
    requires IsListKey(key) || IsDetailKey(key)
    ensures Reaches(Lists(), key) <==> IsListKey(key)
  {
    if IsDetailKey(key) {
      assert key[..2][1] == Word("detail");
    }
  }

  /** invalidateDetail(id) reaches the key of that detail and no other key. */
  lemma DetailReachesOnlyItself(id: string, key: Key)
    requires IsListKey(key) || IsDetailKey(key)
    ensures Reaches(Detail(id), key) <==> key == Detail(id)
  {
    if IsListKey(key) {
      assert key[..2][1] == Word("list");
    }
  }

  /** Different parameters or ids give different keys. */
  lemma KeysInjective(p: ListParams, q: ListParams, a: string, b: string)
    ensures List(p) == List(q) ==> p == q
    ensures Detail(a) == Detail(b) ==> a == b
    ensures List(p) != Detail(a)
  {
    if List(p) == List(q) {
      assert List(p)[2] == Params(p);
    }
    if Detail(a) == Detail(b) {
      assert Detail(a)[2] == Word(a);
    }
    assert List(p)[1] != Detail(a)[1];
  }
}
