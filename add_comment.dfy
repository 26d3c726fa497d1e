/**
 * hooks/tickets/useAddComment.ts: `mutate(content)` for one ticket. The
 * request goes out only when the app is online and the ticket is not an
 * offline one; otherwise the comment is queued under an
 * 'offline_comment_' id and appended to the ticket's AsyncStorageCache
 * detail, when there is one.
 */
module AddCommentHook {
  import opened Wrappers
  import opened Text
  import opened JsValues
  import opened Schema
  import opened KeyValue
  import opened Remote
  import opened Session
  import TicketStorage
  import StorageCache
  import OfflineSync
  import MockServer

  /** The author the online request names: `user?.x ?? 'unknown' / 'Unknown' / 'unknown@example.com'`. */
  function OnlineAuthor(user: Option<User>): Creator {
    Creator(Some(Nullish(user, (u: User) => u.id, "unknown")),
            Some(Nullish(user, (u: User) => u.name, "Unknown")),
            Some(Nullish(user, (u: User) => u.email, "unknown@example.com")))
  }

  /** The author of an offline comment: `user?.x ?? 'unknown' / 'Você' / ''`. */
  function OfflineAuthor(user: Option<User>): Creator {
    Creator(Some(Nullish(user, (u: User) => u.id, "unknown")),
            Some(Nullish(user, (u: User) => u.name, "Voc\U{00EA}")),
            Some(Nullish(user, (u: User) => u.email, "")))
  }

  /** `offline_comment_${Date.now()}` */
  function OfflineCommentId(nowMs: nat): string {
    "offline_comment_" + NatToString(nowMs)
  }

  /** The comment the offline branch builds. */
  function OfflineComment(content: string, user: Option<User>, env: Env): Comment {
    Comment(Str(OfflineCommentId(env.nowMs)), content, env.nowIso, OfflineAuthor(user))
  }

  /** Whether the request is sent: online, and the id is not an offline one. */
  predicate TakesApiPath(isOnline: bool, ticketId: JsId) {
    isOnline && !TicketStorage.IsOfflineTicket(ticketId)
  }

  /** The request of the online branch: `addComment(Number(ticketId), { text, createdAt, createdBy })`. */
  function CommentCall(ticketId: JsId, content: string, user: Option<User>, now: string): ApiCall {
    AddCommentCall(NumberText(ticketId), DraftBody(content, now, OnlineAuthor(user)))
  }

  /** The queue entry of the offline branch. */
  function CommentAction(ticketId: JsId, c: Comment, actionEnv: Env): PendingAction {
    TicketStorage.NewPendingAction(AddCommentType, Some(ticketId), CommentFields(c), None, actionEnv)
  }

  /** The cached detail with `c` appended to its comments, when there is one. */
  function Appended(e: Entries, ticketId: JsId, c: Comment, nowMs: int): Entries {
    match StorageCache.LoadTicketDetail(e, ticketId)
    case None => e
    case Some(t) => StorageCache.SavedDetail(e, ticketId, t.(comments := t.comments + [c]), nowMs)
  }

  /**
   * The store after the offline branch: the action is queued first, then
   * the detail is rewritten. `env` holds the comment's clock readings,
   * `actionEnv` those of addPendingAction, and `detailMs` the later
   * `Date.now()` of saveTicketDetail.
   */
  function OfflineAdd(e: Entries, ticketId: JsId, content: string, user: Option<User>, env: Env, actionEnv: Env, detailMs: int): Entries {
    var c := OfflineComment(content, user, env);
    Appended(TicketStorage.AddedAction(e, CommentAction(ticketId, c, actionEnv)), ticketId, c, detailMs)
  }

  /** The online branch: a rejected request ends in onError with the store untouched; else the detail goes. */
  function OnlineAdd(e: Entries, script: seq<Result<Reply>>, ticketId: JsId): (r: (Outcome, Entries, seq<Result<Reply>>))
    ensures r.2 == Next(script).1
    ensures r.0.Fail? <==> Next(script).0.Err?
    ensures r.0.Fail? ==> r.1 == e
    ensures r.0.Pass? ==> r.1 == StorageCache.ClearedDetail(e, Str(NumberText(ticketId)))
  {
    var (answer, rest) := Next(script);
    match answer
    case Err(m) => (Fail(m), e, rest)
    case Ok(_) => (Pass, StorageCache.ClearedDetail(e, Str(NumberText(ticketId))), rest)
  }

  /** The hook's state for one ticket. */
  class AddComment {
    const ticketId: JsId
    const isOnline: bool
    const user: Option<User>
    var isPending: bool

    constructor (ticketId: JsId, isOnline: bool, user: Option<User>)
      ensures this.ticketId == ticketId && this.isOnline == isOnline && this.user == user && !isPending
    {
      this.ticketId := ticketId;
      this.isOnline := isOnline;
      this.user := user;
      isPending := false;
    }

    /** mutate(content): onSuccess on either branch unless the request was rejected. */
    method Mutate(st: Store, api: Api, content: string, env: Env, actionEnv: Env, detailMs: int) returns (outcome: Outcome)
      modifies this, st, api
      ensures !isPending
      ensures TakesApiPath(isOnline, ticketId) ==>
        api.calls == old(api.calls) + [CommentCall(ticketId, content, user, env.nowIso)]
        && (outcome, st.entries, api.script) == OnlineAdd(old(st.entries), old(api.script), ticketId)
      ensures !TakesApiPath(isOnline, ticketId) ==>
        api.calls == old(api.calls) && api.script == old(api.script) && outcome == Pass
        && st.entries == OfflineAdd(old(st.entries), ticketId, content, user, env, actionEnv, detailMs)
    {
      isPending := true;
      var isOffline := TicketStorage.IsOfflineTicket(ticketId);
      if isOnline && !isOffline {
        var answer := api.Call(CommentCall(ticketId, content, user, env.nowIso));
        if answer.Err? {
          outcome := Fail(answer.error);
        } else {
          StorageCache.ClearTicketDetail(st, Str(NumberText(ticketId)));
          outcome := Pass;
        }
      } else {
        var newComment := OfflineComment(content, user, env);
        var _ := TicketStorage.AddPendingAction(st, AddCommentType, Some(ticketId), CommentFields(newComment), None, actionEnv);
        var cachedTicket := StorageCache.LoadTicketDetail(st.entries, ticketId);
        if cachedTicket.Some? {
          var updatedTicket := cachedTicket.value.(comments := cachedTicket.value.comments + [newComment]);
          StorageCache.SaveTicketDetail(st, ticketId, updatedTicket, detailMs);
        }
        outcome := Pass;
      }
      isPending := false;
    }
  }

  // ---------------------------------------------------------------------
  // Properties

  /**
   * Offline, the queue gains exactly the 'addComment' action with the
   * ticket's id, and the comment in it carries an 'offline_comment_' id.
   */
  lemma OfflineAddQueues(e: Entries, ticketId: JsId, content: string, user: Option<User>, env: Env, actionEnv: Env, detailMs: int)
    ensures var c := OfflineComment(content, user, env);
      TicketStorage.GetPendingActions(OfflineAdd(e, ticketId, content, user, env, actionEnv, detailMs))
        == TicketStorage.GetPendingActions(e) + [CommentAction(ticketId, c, actionEnv)]
      && StartsWith(IdString(c.id), "offline_comment_")
  {
    var c := OfflineComment(content, user, env);
    StorageCache.DetailKeyDistinct(ticketId);
    assert OfflineCommentId(env.nowMs)[..16] == "offline_comment_";
  }

  /**
   * Offline, a cached detail gets the comment at the end of its comments
   * and keeps everything else; without a cached detail, none appears.
   */
  lemma OfflineAddAppends(e: Entries, ticketId: JsId, content: string, user: Option<User>, env: Env, actionEnv: Env, detailMs: int)
    ensures var c := OfflineComment(content, user, env);
      var r := OfflineAdd(e, ticketId, content, user, env, actionEnv, detailMs);
      match StorageCache.LoadTicketDetail(e, ticketId)
      case None => StorageCache.LoadTicketDetail(r, ticketId) == None
      case Some(t) => StorageCache.LoadTicketDetail(r, ticketId) == Some(t.(comments := t.comments + [c]))
  {
    StorageCache.DetailKeyDistinct(ticketId);
    var c := OfflineComment(content, user, env);
    var e1 := TicketStorage.AddedAction(e, CommentAction(ticketId, c, actionEnv));
    assert StorageCache.LoadTicketDetail(e1, ticketId) == StorageCache.LoadTicketDetail(e, ticketId);
  }

  /**
   * A comment queued for a ticket created offline replays, in syncAll,
   * as a request to the path "NaN": the queue keeps the 'offline_' id
   * and syncAddComment passes it through `Number`.
   */
  lemma OfflineTicketCommentHitsNaN(ticketEnv: Env, content: string, user: Option<User>, env: Env, actionEnv: Env)
    ensures var c := OfflineComment(content, user, env);
      OfflineSync.CallOf(CommentAction(Str(OfflineId(ticketEnv)), c, actionEnv))
        == [AddCommentCall("NaN", ObjectBody(CommentFields(c)))]
  {
    var c := OfflineComment(content, user, env);
    OfflineSync.OfflineTargetsNaN(CommentAction(Str(OfflineId(ticketEnv)), c, actionEnv), ticketEnv);
  }

  /** A ticket created offline never takes the API path, online or not. */
  lemma OfflineTicketStaysLocal(isOnline: bool, ticketEnv: Env)
    ensures !TakesApiPath(isOnline, Str(OfflineId(ticketEnv)))
  {
    TicketStorage.OfflineIdIsOffline(ticketEnv);
  }

  /**
   * Both requests put an object where the mock server expects the text:
   * the online one sends the draft `{ text, createdAt, createdBy }` as
   * `text`, and a replayed action sends the stored comment. The server's
   * blank-text test then throws, so neither kind of request stores a
   * comment there.
   */
  lemma CommentsNeverReachServer(ticketId: JsId, content: string, user: Option<User>, env: Env)
    ensures MockServer.CommentTextOk(Some(CommentCall(ticketId, content, user, env.nowIso).body)) == None
    ensures MockServer.CommentTextOk(Some(ObjectBody(CommentFields(OfflineComment(content, user, env))))) == None
  {
  }
}
