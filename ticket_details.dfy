/**
 * hooks/tickets/useTicketDetails.ts: `fetchData(skipCache)` and the state
 * it leaves. Which source wins is a function of the two AsyncStorage
 * caches and the server's answer: an offline id is looked up in
 * ticketStorage only; any other id shows the AsyncStorageCache detail
 * first and is then replaced by the server's answer, and a failed request
 * falls back to ticketStorage's detail and then to its cached list.
 */
module TicketDetailsHook {
  import opened Wrappers
  import opened JsValues
  import opened Schema
  import opened KeyValue
  import opened Remote
  import TicketStorage
  import StorageCache

  /** The message set when an offline ticket is in neither cache. */
  const OfflineMissing := "Ticket offline n\U{00E3}o encontrado no cache"

  /**
   * The message of an answer that is not a ticket. The source has no such
   * path: the oracle's `Reply` can also be a comment, and this message only
   * closes that case of the model.
   */
  const NotATicket := "Unexpected answer"

  /** The hook's state variables. */
  datatype DetailsState = DetailsState(
    data: Option<Ticket>, isLoading: bool, isError: bool, error: Option<string>, isFromCache: bool)

  /**
   * `fetchTicketById(id)` as a ticket. An answer of another shape, which
   * only the oracle's `Reply` union allows, is treated as a failure.
   */
  function FetchedTicket(answer: Result<Reply>): (r: Result<Ticket>)
    ensures r.Ok? <==> answer.Ok? && answer.value.TicketReply?
  {
    match answer
    case Err(m) => Err(m)
    case Ok(TicketReply(t)) => Ok(t)
    case Ok(CommentReply(_)) => Err(NotATicket)
  }

  /** `list?.data.find(t => String(t.id) === String(id))` */
  function FromList(e: Entries, id: JsId): (r: Option<Ticket>)
    ensures r.Some? ==> TicketStorage.GetTicketsFromStorage(e).Some? && r.value in TicketStorage.GetTicketsFromStorage(e).value.data
    ensures r.Some? ==> IdString(r.value.id) == IdString(id)
  {
    match TicketStorage.GetTicketsFromStorage(e)
    case None => None
    case Some(l) =>
      match TicketStorage.FindById(l.data, id)
      case None => None
      case Some(i) => Some(l.data[i])
  }

  /** What one fetchData leaves: the state, the store, the script and the requests made. */
  datatype FetchRun = FetchRun(state: DetailsState, entries: Entries, script: seq<Result<Reply>>, calls: seq<ApiCall>)

  /**
   * The last two fallbacks of both cascades: ticketStorage's detail, then
   * its cached list (copied into AsyncStorageCache), else the error.
   */
  function Fallback(s: DetailsState, e: Entries, id: JsId, message: string, nowMs: int): DetailsState {
    match TicketStorage.GetTicketDetailsFromStorage(e, id)
    case Some(t) => s.(data := Some(t), isFromCache := true)
    case None =>
      match FromList(e, id)
      case Some(t) => s.(data := Some(t), isFromCache := true)
      case None => s.(isError := true, error := Some(message))
  }

  /** The store after the fallbacks: written only when the list supplied the ticket. */
  function FallbackEntries(e: Entries, id: JsId, nowMs: int): Entries {
    if TicketStorage.GetTicketDetailsFromStorage(e, id).None? && FromList(e, id).Some? then
      StorageCache.SavedDetail(e, id, FromList(e, id).value, nowMs)
    else e
  }

  /** The AsyncStorageCache detail that is shown before the request, unless skipped. */
  function CacheHit(e: Entries, id: JsId, skipCache: bool): Option<Ticket> {
    if skipCache then None else StorageCache.LoadTicketDetail(e, id)
  }

  /** fetchData(skipCache) from the state `s0`, reading the clock once as `nowMs`. */
  function Fetched(s0: DetailsState, e: Entries, script: seq<Result<Reply>>, id: JsId, skipCache: bool, nowMs: int): (r: FetchRun)
    ensures !r.state.isLoading
  {
    if !IdTruthy(Some(id)) then FetchRun(s0.(isLoading := false), e, script, [])
    else
      var s := s0.(isLoading := false, isError := false, error := None);
      if TicketStorage.IsOfflineTicket(id) then
        FetchRun(Fallback(s, e, id, OfflineMissing, nowMs), FallbackEntries(e, id, nowMs), script, [])
      else
        var hit := CacheHit(e, id, skipCache);
        var s1 := if hit.Some? then s.(data := hit, isFromCache := true) else s;
        var (answer, rest) := Next(script);
        var calls := [FetchTicketCall(IdString(id))];
        match FetchedTicket(answer)
        case Ok(t) => FetchRun(s1.(data := Some(t), isFromCache := false), StorageCache.SavedDetail(e, id, t, nowMs), rest, calls)
        case Err(m) =>
          if hit.Some? then FetchRun(s1, e, rest, calls)
          else FetchRun(Fallback(s1, e, id, m, nowMs), FallbackEntries(e, id, nowMs), rest, calls)
  }

  /** The hook for one ticket id. */
  class TicketDetails {
    const ticketId: JsId
    var data: Option<Ticket>
    var isLoading: bool
    var isError: bool
    var error: Option<string>
    var isFromCache: bool

    function State(): DetailsState
      reads this
    {
      DetailsState(data, isLoading, isError, error, isFromCache)
    }

    /** The initial state: loading, nothing shown. */
    constructor (ticketId: JsId)
      ensures this.ticketId == ticketId
      ensures State() == DetailsState(None, true, false, None, false)
    {
      this.ticketId := ticketId;
      data, isLoading, isError, error, isFromCache := None, true, false, None, false;
    }

    /** The fallbacks after the cached sources missed. */
    method FallBack(st: Store, message: string, nowMs: int)
      modifies this, st
      ensures State() == Fallback(old(State()), old(st.entries), ticketId, message, nowMs)
      ensures st.entries == FallbackEntries(old(st.entries), ticketId, nowMs)
    {
      var fromStorage := TicketStorage.GetTicketDetailsFromStorage(st.entries, ticketId);
      if fromStorage.Some? {
        data, isFromCache := fromStorage, true;
        return;
      }
      var ticketFromList := FromList(st.entries, ticketId);
      if ticketFromList.Some? {
        data, isFromCache := ticketFromList, true;
        StorageCache.SaveTicketDetail(st, ticketId, ticketFromList.value, nowMs);
        return;
      }
      isError, error := true, Some(message);
    }

    /** fetchData(skipCache) */
    method FetchData(st: Store, api: Api, skipCache: bool, nowMs: int)
      modifies this, st, api
      ensures var r := Fetched(old(State()), old(st.entries), old(api.script), ticketId, skipCache, nowMs);
        State() == r.state && st.entries == r.entries && api.script == r.script && api.calls == old(api.calls) + r.calls
    {
      if !IdTruthy(Some(ticketId)) {
        isLoading := false;
        return;
      }
      isLoading, isError, error := true, false, None;
      if TicketStorage.IsOfflineTicket(ticketId) {
        isLoading := false;
        FallBack(st, OfflineMissing, nowMs);
        return;
      }
      var hasCachedData := false;
      if !skipCache {
        var cached := StorageCache.LoadTicketDetail(st.entries, ticketId);
        if cached.Some? {
          data, isFromCache, isLoading := cached, true, false;
          hasCachedData := true;
        }
      }
      var answer := api.Call(FetchTicketCall(IdString(ticketId)));
      var ticket := FetchedTicket(answer);
      isLoading := false;
      if ticket.Ok? {
        data, isFromCache, isError, error := Some(ticket.value), false, false, None;
        StorageCache.SaveTicketDetail(st, ticketId, ticket.value, nowMs);
      } else if hasCachedData {
        isError, error := false, None;
      } else {
        FallBack(st, ticket.error, nowMs);
      }
    }
  }

  // ---------------------------------------------------------------------
  // Properties

  /** An offline id never reaches the API; a falsy id reads nothing at all. */
  lemma OfflineNeverFetches(s0: DetailsState, e: Entries, script: seq<Result<Reply>>, id: JsId, skipCache: bool, nowMs: int)
    requires TicketStorage.IsOfflineTicket(id) || !IdTruthy(Some(id))
    ensures var r := Fetched(s0, e, script, id, skipCache, nowMs);
      r.calls == [] && r.script == script
    ensures !IdTruthy(Some(id)) ==> Fetched(s0, e, script, id, skipCache, nowMs) == FetchRun(s0.(isLoading := false), e, script, [])
  {
  }

  /** Any other id makes exactly one request, for that id. */
  lemma OnlineFetchesOnce(s0: DetailsState, e: Entries, script: seq<Result<Reply>>, id: JsId, skipCache: bool, nowMs: int)
    requires IdTruthy(Some(id)) && !TicketStorage.IsOfflineTicket(id)
    ensures var r := Fetched(s0, e, script, id, skipCache, nowMs);
      r.calls == [FetchTicketCall(IdString(id))] && r.script == Next(script).1
  {
  }

  /** The server's ticket replaces whatever was shown and is written back to AsyncStorageCache. */
  lemma AnswerWins(s0: DetailsState, e: Entries, script: seq<Result<Reply>>, id: JsId, skipCache: bool, nowMs: int)
    requires IdTruthy(Some(id)) && !TicketStorage.IsOfflineTicket(id)
    requires FetchedTicket(Next(script).0).Ok?
    ensures var r := Fetched(s0, e, script, id, skipCache, nowMs);
      var t := FetchedTicket(Next(script).0).value;
      r.state.data == Some(t) && !r.state.isFromCache && !r.state.isError && r.state.error == None
      && StorageCache.LoadTicketDetail(r.entries, id) == Some(t)
  {
  }

  /** A failed request after a cache hit keeps the cached ticket and raises no error. */
  lemma CacheHitSurvivesFailure(s0: DetailsState, e: Entries, script: seq<Result<Reply>>, id: JsId, nowMs: int)
    requires IdTruthy(Some(id)) && !TicketStorage.IsOfflineTicket(id)
    requires StorageCache.LoadTicketDetail(e, id).Some? && FetchedTicket(Next(script).0).Err?
    ensures var r := Fetched(s0, e, script, id, false, nowMs);
      r.state.data == StorageCache.LoadTicketDetail(e, id) && r.state.isFromCache && !r.state.isError && r.entries == e
  {
  }

  /** Every source fetchData consults came up empty. */
  predicate AllMiss(e: Entries, script: seq<Result<Reply>>, id: JsId, skipCache: bool) {
    TicketStorage.GetTicketDetailsFromStorage(e, id).None? && FromList(e, id).None?
    && (!TicketStorage.IsOfflineTicket(id) ==> CacheHit(e, id, skipCache).None? && FetchedTicket(Next(script).0).Err?)
  }

  /**
   * The error is raised exactly when every consulted source missed;
   * otherwise a ticket is shown.
   */
  lemma ErrorIffAllMiss(s0: DetailsState, e: Entries, script: seq<Result<Reply>>, id: JsId, skipCache: bool, nowMs: int)
    requires IdTruthy(Some(id))
    ensures var r := Fetched(s0, e, script, id, skipCache, nowMs);
      (r.state.isError <==> AllMiss(e, script, id, skipCache))
      && (!r.state.isError ==> r.state.data.Some?)
  {
  }

  /** A ticket found only in ticketStorage's list is copied into AsyncStorageCache for the next time. */
  lemma ListHitIsCopied(s0: DetailsState, e: Entries, script: seq<Result<Reply>>, id: JsId, skipCache: bool, nowMs: int)
    requires IdTruthy(Some(id))
    requires TicketStorage.GetTicketDetailsFromStorage(e, id).None? && FromList(e, id).Some?
    requires !TicketStorage.IsOfflineTicket(id) ==> CacheHit(e, id, skipCache).None? && FetchedTicket(Next(script).0).Err?
    ensures var r := Fetched(s0, e, script, id, skipCache, nowMs);
      r.state.data == FromList(e, id) && r.state.isFromCache
      && StorageCache.LoadTicketDetail(r.entries, id) == FromList(e, id)
  {
  }
}
