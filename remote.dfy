/**
 * The ticket HTTP client (services/TicketApi.ts) as an oracle: every
 * request is logged, and its answer is the next entry of a script fixed
 * in advance. The sync passes and the hooks are stated over the log and
 * the script, so "no request is made" and "the same requests whatever the
 * answers" can be said exactly.
 */
module Remote {
  import opened Wrappers
  import opened JsValues
  import opened Schema

  /** What a successful request resolves to (`response.data`). */
  datatype Reply = TicketReply(ticket: Ticket) | CommentReply(comment: Comment)

  /** `response.id` */
  function ReplyId(r: Reply): JsId {
    match r
    case TicketReply(t) => t.id
    case CommentReply(c) => c.id
  }

  /**
   * The JSON `text` of a comment request: a string, or one of the objects
   * some callers pass instead (a queued action's data, or the comment
   * draft of the add-comment hook).
   */
  datatype CommentBody =
    | TextBody(text: string)
    | ObjectBody(data: ActionData)
    | DraftBody(text: string, createdAt: string, createdBy: Creator)

  /**
   * One request. Path ids are the text interpolated into the URL; the
   * create request is multipart form data, where an absent field is sent
   * as the text "undefined".
   */
  datatype ApiCall =
    | CreateTicketCall(title: string, description: string, category: string, priority: string)
    | UpdateTicketCall(id: string, data: Patch)
    | AddCommentCall(ticketId: string, body: CommentBody)
    | FetchTicketCall(id: string)

  /** createTicket(data): the four form fields it appends; `formData.append` turns undefined into "undefined". */
  function CreateCall(data: Patch): ApiCall {
    CreateTicketCall(Interpolate(data.title), Interpolate(data.description), Interpolate(data.category), Interpolate(data.priority))
  }

  /** The message a request that ran out of scripted answers fails with. */
  const NetworkError := "Network Error"

  /** The answer the next request gets and the script left after it. */
  function Next(script: seq<Result<Reply>>): (r: (Result<Reply>, seq<Result<Reply>>))
    ensures script == [] ==> r == (Err(NetworkError), [])
    ensures script != [] ==> [r.0] + r.1 == script
  {
    if script == [] then (Err(NetworkError), []) else (script[0], script[1..])
  }

  /** The server as the client sees it. */
  class Api {
    /** Answers still to come, in order. */
    var script: seq<Result<Reply>>
    /** Requests made so far, in order. */
    var calls: seq<ApiCall>

    constructor (answers: seq<Result<Reply>>)
      ensures script == answers && calls == []
    {
      script := answers;
      calls := [];
    }

    /** Sends one request and waits for its answer. */
    method Call(c: ApiCall) returns (r: Result<Reply>)
      modifies this
      ensures calls == old(calls) + [c]
      ensures (r, script) == Next(old(script))
    {
      calls := calls + [c];
      var n := Next(script);
      r := n.0;
      script := n.1;
    }
  }
}
