/**
 * api-mock/src/server.ts: the mock REST server's handlers over its
 * in-memory database (types.ts). The read handlers are functions of the
 * ticket and user tables; the handlers that push, overwrite or splice
 * are methods of the class holding them.
 */
module MockServer {
  import opened Wrappers
  import opened Text
  import opened Query
  import JsValues
  import Remote

  // ---------------------------------------------------------------------
  // Records (types.ts)

  datatype User = User(id: string, name: string, email: string, password: Option<string>, createdAt: Option<string>)

  datatype Comment = Comment(id: int, text: string, createdAt: string, createdBy: User)

  datatype Attachment = Attachment(id: int, name: string, url: string, kind: string, size: int)

  datatype Ticket = Ticket(
    id: int, title: string, description: string, category: string, priority: string, status: string,
    createdAt: string, updatedAt: string, createdBy: User, comments: seq<Comment>, attachments: seq<Attachment>)

  /** The author the server stamps on what it creates. */
  const CurrentUser := User("current_user", "Usu\U{00E1}rio Atual", "usuario@email.com", None, None)

  // ---------------------------------------------------------------------
  // Responses

  /** `Math.ceil(total / limit)` as a JSON number, or the two non-finite values. */
  datatype PageCount = Pages(n: int) | Infinite | NotANumber

  datatype Body =
    | TicketPage(data: seq<Ticket>, total: nat, page: Option<int>, limit: Option<int>, totalPages: PageCount)
    | TicketJson(ticket: Ticket)
    | CommentJson(comment: Comment)
    | CommentsJson(comments: seq<Comment>)
    | UserJson(user: User)
    | LoginJson(user: User, token: string)
    | ErrorJson(error: string)
    | NoBody

  /** An HTTP status and the JSON it carries. */
  datatype Response = Response(status: int, body: Body)

  const NotFound := "Ticket not found"
  const InternalError := "Internal server error"
  const TitleTooShort := "Title must be at least 5 characters"
  const DescriptionTooShort := "Description must be at least 10 characters"
  const CategoryRequired := "Category is required"
  const CommentTextRequired := "Comment text is required"
  const NameTooShort := "Name must be at least 2 characters"
  const EmailInvalid := "Valid email is required"
  const PasswordTooShort := "Password must be at least 6 characters"
  const EmailTaken := "Email already exists"
  const CredentialsRequired := "Email and password are required"
  const CredentialsInvalid := "Invalid email or password"

  function Error(status: int, message: string): Response {
    Response(status, ErrorJson(message))
  }

  // ---------------------------------------------------------------------
  // Lookup by id

  /** `t.id === parseInt(req.params.id)`: a NaN id (None) matches nothing. */
  predicate HasId(t: Ticket, id: Option<int>) {
    id == Some(t.id)
  }

  /** `findIndex(t => t.id === id)`: the first ticket with the id. */
  function FindIndex(ts: seq<Ticket>, id: Option<int>): (r: Option<nat>)
    ensures r.None? <==> forall i :: 0 <= i < |ts| ==> !HasId(ts[i], id)
    ensures r.Some? ==> r.value < |ts| && HasId(ts[r.value], id) && forall j :: 0 <= j < r.value ==> !HasId(ts[j], id)
  {
    if ts == [] then None
    else if HasId(ts[0], id) then Some(0)
    else match FindIndex(ts[1..], id)
      case None => None
      case Some(i) => Some(i + 1)
  }

  /** No two tickets share an id. */
  predicate UniqueIds(ts: seq<Ticket>) {
    Unique(ts, (t: Ticket) => t.id)
  }

  /** No two users share an email. */
  predicate UniqueEmails(us: seq<User>) {
    Unique(us, (u: User) => u.email)
  }

  // ---------------------------------------------------------------------
  // GET /api/v1/tickets

  /** The query string: each parameter absent or a single string. */
  datatype ListQuery = ListQuery(
    status: Option<string>, search: Option<string>, sort: Option<string>, page: Option<string>, limit: Option<string>)

  /** The search filter: the lowered text in the lowered title or description, or in the decimal id. */
  predicate SearchHit(t: Ticket, search: string) {
    var needle := Lower(search);
    Contains(Lower(t.title), needle) || Contains(IntToString(t.id), needle) || Contains(Lower(t.description), needle)
  }

  /** Whether a ticket survives the query's filters: the truthy ones apply, the others do not. */
  predicate Matches(t: Ticket, q: ListQuery) {
    (JsValues.Truthy(q.status) ==> t.status == q.status.value)
    && (JsValues.Truthy(q.search) ==> SearchHit(t, q.search.value))
  }

  /** `t => t.status === status` */
  function StatusTest(status: string): Ticket -> bool {
    (t: Ticket) => t.status == status
  }

  /** The search filter as a callback. */
  function SearchTest(search: string): Ticket -> bool {
    (t: Ticket) => SearchHit(t, search)
  }

  /** Both filters in one callback. */
  function MatchTest(q: ListQuery): Ticket -> bool {
    (t: Ticket) => Matches(t, q)
  }

  /** The two filters as the handler applies them, one after the other. */
  function Filtered(ts: seq<Ticket>, q: ListQuery): seq<Ticket> {
    var byStatus := if JsValues.Truthy(q.status) then Filter(ts, StatusTest(q.status.value)) else ts;
    if JsValues.Truthy(q.search) then Filter(byStatus, SearchTest(q.search.value)) else byStatus
  }

  /** The sort key: `new Date(t.createdAt)`, with ISO text order standing for time order. */
  function CreatedAt(t: Ticket): string {
    t.createdAt
  }

  /** `sort`, defaulting to 'createdAt_desc' when absent. */
  function SortMode(q: ListQuery): string {
    q.sort.GetOr("createdAt_desc")
  }

  /** The filtered tickets in the order the sort mode asks for; an unknown mode keeps stored order. */
  function Ordered(ts: seq<Ticket>, q: ListQuery): seq<Ticket> {
    var f := Filtered(ts, q);
    if SortMode(q) == "createdAt_desc" then OrderBy(f, CreatedAt, true)
    else if SortMode(q) == "createdAt_asc" then OrderBy(f, CreatedAt, false)
    else f
  }

  /** `parseInt(value)` with the handler's default text; None is NaN. */
  function NumberParam(p: Option<string>, default: string): Option<int> {
    ParseInt(p.GetOr(default))
  }

  /** `Math.ceil(total / limit)` */
  function PageCountOf(total: nat, limit: Option<int>): (r: PageCount)
    ensures limit.Some? && limit.value > 0 ==>
      (r.Pages? && r.n >= 0 && (total == 0 ==> r.n == 0) && (total > 0 ==> (r.n - 1) * limit.value < total <= r.n * limit.value))
  {
    match limit
    case None => NotANumber
    case Some(l) =>
      if l == 0 then (if total == 0 then NotANumber else Infinite)
      else if l > 0 then
        var n := (total + l - 1) / l;
        assert n * l + (total + l - 1) % l == total + l - 1;
        Pages(n)
      else Pages(-(total / -l))
  }

  /** `all.slice((page - 1) * limit, (page - 1) * limit + limit)`; a NaN bound counts as 0. */
  function PageData(all: seq<Ticket>, page: Option<int>, limit: Option<int>): (r: seq<Ticket>)
    ensures page.Some? && limit.Some? && page.value >= 1 && limit.value >= 1 ==>
      var start := (page.value - 1) * limit.value;
      start >= 0
      && |r| == (if start >= |all| then 0 else if start + limit.value <= |all| then limit.value else |all| - start)
      && forall i :: 0 <= i < |r| ==> r[i] == all[start + i]
  {
    if page.None? || limit.None? then []
    else
      var start := (page.value - 1) * limit.value;
      NonNegativeProduct(page.value - 1, limit.value);
      Slice(all, start, start + limit.value)
  }

  lemma NonNegativeProduct(a: int, b: int)
    ensures a >= 0 && b >= 0 ==> a * b >= 0
  {
  }

  /** The handler's response: the page of the ordered tickets, their count and the page count. */
  function ListTickets(ts: seq<Ticket>, q: ListQuery): Response {
    var all := Ordered(ts, q);
    var page := NumberParam(q.page, "1");
    var limit := NumberParam(q.limit, "20");
    Response(200, TicketPage(PageData(all, page, limit), |all|, page, limit, PageCountOf(|all|, limit)))
  }

  // ---------------------------------------------------------------------
  // GET /api/v1/tickets/:id and GET /api/v1/tickets/:id/comments

  function GetTicket(ts: seq<Ticket>, idText: string): (r: Response)
    ensures r.status == 404 <==> FindIndex(ts, ParseInt(idText)).None?
    ensures r.status == 200 ==> r.body.TicketJson? && r.body.ticket in ts && HasId(r.body.ticket, ParseInt(idText))
  {
    match FindIndex(ts, ParseInt(idText))
    case None => Error(404, NotFound)
    case Some(i) => Response(200, TicketJson(ts[i]))
  }

  function GetComments(ts: seq<Ticket>, idText: string): (r: Response)
    ensures r.status == 404 <==> FindIndex(ts, ParseInt(idText)).None?
    ensures r.status == 200 ==> r.body.CommentsJson? && exists t :: t in ts && HasId(t, ParseInt(idText)) && r.body.comments == t.comments
  {
    match FindIndex(ts, ParseInt(idText))
    case None => Error(404, NotFound)
    case Some(i) => Response(200, CommentsJson(ts[i].comments))
  }

  // ---------------------------------------------------------------------
  // POST /api/v1/tickets

  /** The JSON body of a create request; every field may be missing. */
  datatype CreateBody = CreateBody(title: Option<string>, description: Option<string>, category: Option<string>, priority: Option<string>)

  predicate TitleRejected(b: CreateBody) { b.title.None? || |b.title.value| < 5 }
  predicate DescriptionRejected(b: CreateBody) { b.description.None? || |b.description.value| < 10 }
  predicate CategoryRejected(b: CreateBody) { !JsValues.Truthy(b.category) }

  /** The first check the body fails, in the handler's order. */
  function CreateError(b: CreateBody): (r: Option<string>)
    ensures r.None? <==> !TitleRejected(b) && !DescriptionRejected(b) && !CategoryRejected(b)
    ensures r == Some(TitleTooShort) <==> TitleRejected(b)
    ensures r == Some(DescriptionTooShort) <==> !TitleRejected(b) && DescriptionRejected(b)
    ensures r == Some(CategoryRequired) <==> !TitleRejected(b) && !DescriptionRejected(b) && CategoryRejected(b)
  {
    if TitleRejected(b) then Some(TitleTooShort)
    else if DescriptionRejected(b) then Some(DescriptionTooShort)
    else if CategoryRejected(b) then Some(CategoryRequired)
    else None
  }

  /**
   * The body the create handler reads for a request of the client. The
   * client sends a create as multipart form data (`Remote.CreateCall`), and
   * the server installs only `express.json()`, which parses JSON bodies and,
   * as the body parser of Express 4 does, leaves any other `req.body` an
   * object without fields. Under Express 5 `req.body` would stay undefined,
   * reading `body.title` would throw, and the handler would answer 500.
   */
  function ReceivedCreateBody(c: Remote.ApiCall): CreateBody
    requires c.CreateTicketCall?
  {
    CreateBody(None, None, None, None)
  }

  /** `Math.max(...ids, 0)` */
  function MaxId(ts: seq<Ticket>): (r: int)
    ensures r >= 0 && forall i :: 0 <= i < |ts| ==> ts[i].id <= r
    ensures r == 0 || exists i :: 0 <= i < |ts| && ts[i].id == r
  {
    if ts == [] then 0
    else
      var m := MaxId(ts[..|ts| - 1]);
      assert forall i :: 0 <= i < |ts| - 1 ==> ts[..|ts| - 1][i] == ts[i];
      if ts[|ts| - 1].id > m then ts[|ts| - 1].id else m
  }

  /**
   * The ticket a valid create body makes: the next id, priority 'medium' by
   * default, status 'open'; `createdAt` and `updatedAt` are the handler's
   * two clock readings.
   */
  function NewTicket(ts: seq<Ticket>, b: CreateBody, createdAt: string, updatedAt: string): (r: Ticket)
    requires CreateError(b).None?
    ensures r.id >= 1 && (ts == [] ==> r.id == 1) && forall i :: 0 <= i < |ts| ==> ts[i].id < r.id
    ensures r.status == "open" && r.comments == [] && r.attachments == []
    ensures r.priority == "medium" <==> b.priority.None? || b.priority.value in {"", "medium"}
    ensures r.createdAt == createdAt && r.updatedAt == updatedAt
  {
    Ticket(MaxId(ts) + 1, b.title.value, b.description.value, b.category.value,
           if JsValues.Truthy(b.priority) then b.priority.value else "medium",
           "open", createdAt, updatedAt, CurrentUser, [], [])
  }

  // ---------------------------------------------------------------------
  // PUT /api/v1/tickets/:id

  /** The JSON body of an update: the five fields a client may change. */
  datatype UpdateBody = UpdateBody(title: Option<string>, description: Option<string>, category: Option<string>,
                                   priority: Option<string>, status: Option<string>)

  /**
   * `{ ...ticket, ...body, updatedAt }`: a field the body gives replaces the
   * stored one, a field it leaves out keeps the stored one, and the stamp is
   * the clock.
   */
  function Merged(t: Ticket, b: UpdateBody, now: string): (r: Ticket)
    ensures b.title.Some? ==> r.title == b.title.value
    ensures b.title.None? ==> r.title == t.title
    ensures b.description.Some? ==> r.description == b.description.value
    ensures b.description.None? ==> r.description == t.description
    ensures b.category.Some? ==> r.category == b.category.value
    ensures b.category.None? ==> r.category == t.category
    ensures b.priority.Some? ==> r.priority == b.priority.value
    ensures b.priority.None? ==> r.priority == t.priority
    ensures b.status.Some? ==> r.status == b.status.value
    ensures b.status.None? ==> r.status == t.status
    ensures r.id == t.id && r.createdAt == t.createdAt && r.createdBy == t.createdBy
    ensures r.comments == t.comments && r.attachments == t.attachments && r.updatedAt == now
    ensures b == UpdateBody(None, None, None, None, None) ==> r == t.(updatedAt := now)
  {
    t.(title := b.title.GetOr(t.title), description := b.description.GetOr(t.description),
       category := b.category.GetOr(t.category), priority := b.priority.GetOr(t.priority),
       status := b.status.GetOr(t.status), updatedAt := now)
  }

  // ---------------------------------------------------------------------
  // POST /api/v1/tickets/:id/comments

  /**
   * Whether `body.text` passes `!text || text.trim().length === 0`:
   * a missing, empty or blank string is rejected (Some(false)); an object
   * in its place has no `trim`, so the handler throws (None).
   */
  function CommentTextOk(text: Option<Remote.CommentBody>): Option<bool> {
    match text
    case None => Some(false)
    case Some(body) => if body.TextBody? then Some(body.text != "" && Trim(body.text) != "") else None
  }

  /** The comment a valid request makes, numbered by the clock. */
  function NewComment(text: string, env: JsValues.Env): Comment {
    Comment(env.nowMs, text, env.nowIso, CurrentUser)
  }

  /** The ticket after a comment: the comment at the end, updatedAt refreshed. */
  function Commented(t: Ticket, c: Comment, now: string): Ticket {
    t.(comments := t.comments + [c], updatedAt := now)
  }

  // ---------------------------------------------------------------------
  // POST /api/v1/auth/register and POST /api/v1/auth/login

  datatype RegisterBody = RegisterBody(name: Option<string>, email: Option<string>, password: Option<string>)

  /** `users.find(u => u.email === email)` */
  function FindUser(us: seq<User>, email: string): (r: Option<nat>)
    ensures r.None? <==> forall i :: 0 <= i < |us| ==> us[i].email != email
    ensures r.Some? ==> r.value < |us| && us[r.value].email == email && forall j :: 0 <= j < r.value ==> us[j].email != email
  {
    if us == [] then None
    else if us[0].email == email then Some(0)
    else match FindUser(us[1..], email)
      case None => None
      case Some(i) => Some(i + 1)
  }

  /** The first check a registration fails, in the handler's order. */
  function RegisterError(us: seq<User>, b: RegisterBody): (r: Option<string>)
    ensures r.None? <==>
      (b.name.Some? && |b.name.value| >= 2 && b.email.Some? && Contains(b.email.value, "@")
       && b.password.Some? && |b.password.value| >= 6 && FindUser(us, b.email.value).None?)
    ensures r == Some(NameTooShort) <==> b.name.None? || |b.name.value| < 2
  {
    if b.name.None? || |b.name.value| < 2 then Some(NameTooShort)
    else if b.email.None? || !Contains(b.email.value, "@") then Some(EmailInvalid)
    else if b.password.None? || |b.password.value| < 6 then Some(PasswordTooShort)
    else if FindUser(us, b.email.value).Some? then Some(EmailTaken)
    else None
  }

  /** The user a valid registration stores, password included. */
  function NewUser(b: RegisterBody, env: JsValues.Env): User
    requires b.name.Some? && b.email.Some? && b.password.Some?
  {
    User("user_" + NatToString(env.nowMs), b.name.value, b.email.value, b.password, Some(env.nowIso))
  }

  /** `const { password, ...rest } = user` */
  function WithoutPassword(u: User): User {
    u.(password := None)
  }

  datatype LoginBody = LoginBody(email: Option<string>, password: Option<string>)

  /** The login handler; it changes nothing. */
  function Login(us: seq<User>, b: LoginBody, nowMs: nat): (r: Response)
    ensures r.status == 400 <==> !JsValues.Truthy(b.email) || !JsValues.Truthy(b.password)
    ensures r.status == 200 ==> r.body.LoginJson? && r.body.user.password.None?
  {
    if !JsValues.Truthy(b.email) || !JsValues.Truthy(b.password) then Error(400, CredentialsRequired)
    else match FindUser(us, b.email.value)
      case None => Error(401, CredentialsInvalid)
      case Some(i) =>
        if us[i].password != b.password then Error(401, CredentialsInvalid)
        else Response(200, LoginJson(WithoutPassword(us[i]), "mock_token_" + us[i].id + "_" + NatToString(nowMs)))
  }

  // ---------------------------------------------------------------------
  // The handlers that write the database

  /** The database file's two tables. */
  class Server {
    var tickets: seq<Ticket>
    var users: seq<User>

    constructor (tickets: seq<Ticket>, users: seq<User>)
      ensures this.tickets == tickets && this.users == users
    {
      this.tickets := tickets;
      this.users := users;
    }

    /** The keys the handlers keep unique. */
    predicate Valid()
      reads this
    {
      UniqueIds(tickets) && UniqueEmails(users)
    }

    /** POST /api/v1/tickets, with the two clock readings of the new ticket's stamps. */
    method CreateTicket(b: CreateBody, createdAt: string, updatedAt: string) returns (r: Response)
      modifies this
      ensures users == old(users)
      ensures CreateError(b).Some? ==> r == Error(400, CreateError(b).value) && tickets == old(tickets)
      ensures CreateError(b).None? ==>
        var t := NewTicket(old(tickets), b, createdAt, updatedAt);
        r == Response(201, TicketJson(t)) && tickets == old(tickets) + [t]
      ensures old(Valid()) ==> Valid()
    {
      var error := CreateError(b);
      if error.Some? {
        return Error(400, error.value);
      }
      var newTicket := NewTicket(tickets, b, createdAt, updatedAt);
      if UniqueIds(tickets) {
        UniqueAppend(tickets, newTicket, (t: Ticket) => t.id);
      }
      tickets := tickets + [newTicket];
      r := Response(201, TicketJson(newTicket));
    }

    /** PUT /api/v1/tickets/:id */
    method UpdateTicket(idText: string, b: UpdateBody, now: string) returns (r: Response)
      modifies this
      ensures users == old(users)
      ensures FindIndex(old(tickets), ParseInt(idText)).None? ==> r == Error(404, NotFound) && tickets == old(tickets)
      ensures FindIndex(old(tickets), ParseInt(idText)).Some? ==>
        var i := FindIndex(old(tickets), ParseInt(idText)).value;
        var t := Merged(old(tickets)[i], b, now);
        r == Response(200, TicketJson(t)) && tickets == old(tickets)[i := t]
      ensures old(Valid()) ==> Valid()
    {
      var ticketIndex := FindIndex(tickets, ParseInt(idText));
      if ticketIndex.None? {
        return Error(404, NotFound);
      }
      var i := ticketIndex.value;
      tickets := tickets[i := Merged(tickets[i], b, now)];
      r := Response(200, TicketJson(tickets[i]));
    }

    /** DELETE /api/v1/tickets/:id */
    method DeleteTicket(idText: string) returns (r: Response)
      modifies this
      ensures users == old(users)
      ensures FindIndex(old(tickets), ParseInt(idText)).None? ==> r == Error(404, NotFound) && tickets == old(tickets)
      ensures FindIndex(old(tickets), ParseInt(idText)).Some? ==>
        var i := FindIndex(old(tickets), ParseInt(idText)).value;
        r == Response(204, NoBody) && tickets == old(tickets)[..i] + old(tickets)[i + 1..]
      ensures old(Valid()) ==> Valid()
    {
      var ticketIndex := FindIndex(tickets, ParseInt(idText));
      if ticketIndex.None? {
        return Error(404, NotFound);
      }
      var i := ticketIndex.value;
      RemoveKeepsUnique(tickets, i);
      tickets := tickets[..i] + tickets[i + 1..];
      r := Response(204, NoBody);
    }

    /**
     * POST /api/v1/tickets/:id/comments: `env` holds the readings of the
     * comment's id and stamp, `updatedIso` the later one of the ticket's
     * updatedAt.
     */
    method AddComment(idText: string, text: Option<Remote.CommentBody>, env: JsValues.Env, updatedIso: string) returns (r: Response)
      modifies this
      ensures users == old(users)
      ensures FindIndex(old(tickets), ParseInt(idText)).None? ==> r == Error(404, NotFound) && tickets == old(tickets)
      ensures FindIndex(old(tickets), ParseInt(idText)).Some? && CommentTextOk(text) != Some(true) ==>
        r == (if CommentTextOk(text).None? then Error(500, InternalError) else Error(400, CommentTextRequired))
        && tickets == old(tickets)
      ensures FindIndex(old(tickets), ParseInt(idText)).Some? && CommentTextOk(text) == Some(true) ==>
        var i := FindIndex(old(tickets), ParseInt(idText)).value;
        var c := NewComment(text.value.text, env);
        r == Response(201, CommentJson(c)) && tickets == old(tickets)[i := Commented(old(tickets)[i], c, updatedIso)]
      ensures old(Valid()) ==> Valid()
    {
      var ticketIndex := FindIndex(tickets, ParseInt(idText));
      if ticketIndex.None? {
        return Error(404, NotFound);
      }
      var ok := CommentTextOk(text);
      if ok.None? {
        return Error(500, InternalError);
      }
      if !ok.value {
        return Error(400, CommentTextRequired);
      }
      var i := ticketIndex.value;
      var newComment := NewComment(text.value.text, env);
      tickets := tickets[i := Commented(tickets[i], newComment, updatedIso)];
      r := Response(201, CommentJson(newComment));
    }

    /** POST /api/v1/auth/register */
    method Register(b: RegisterBody, env: JsValues.Env) returns (r: Response)
      modifies this
      ensures tickets == old(tickets)
      ensures RegisterError(old(users), b).Some? ==> r == Error(400, RegisterError(old(users), b).value) && users == old(users)
      ensures RegisterError(old(users), b).None? ==>
        var u := NewUser(b, env);
        r == Response(201, UserJson(WithoutPassword(u))) && users == old(users) + [u]
      ensures old(Valid()) ==> Valid()
    {
      var error := RegisterError(users, b);
      if error.Some? {
        return Error(400, error.value);
      }
      var newUser := NewUser(b, env);
      if UniqueEmails(users) {
        UniqueAppend(users, newUser, (u: User) => u.email);
      }
      users := users + [newUser];
      r := Response(201, UserJson(WithoutPassword(newUser)));
    }
  }

  // ---------------------------------------------------------------------
  // Properties

  /** Removing one ticket keeps the ids unique. */
  lemma RemoveKeepsUnique(ts: seq<Ticket>, i: nat)
    requires i < |ts|
    ensures UniqueIds(ts) ==> UniqueIds(ts[..i] + ts[i + 1..])
  {
    var r := ts[..i] + ts[i + 1..];
    if UniqueIds(ts) {
      forall a, b | 0 <= a < b < |r| ensures r[a].id != r[b].id {
        var a', b' := if a < i then a else a + 1, if b < i then b else b + 1;
        assert r[a] == ts[a'] && r[b] == ts[b'];
      }
    }
  }

  /** The filters as applied keep exactly the tickets that match the query, in stored order. */
  lemma FilteredIsMatches(ts: seq<Ticket>, q: ListQuery)
    ensures Filtered(ts, q) == Filter(ts, MatchTest(q))
  {
    var m := MatchTest(q);
    if JsValues.Truthy(q.status) && JsValues.Truthy(q.search) {
      var p1, p2 := StatusTest(q.status.value), SearchTest(q.search.value);
      FilterFilter(ts, p1, p2);
      SameTest(ts, Both(p1, p2), m);
    } else if JsValues.Truthy(q.status) {
      SameTest(ts, StatusTest(q.status.value), m);
    } else if JsValues.Truthy(q.search) {
      SameTest(ts, SearchTest(q.search.value), m);
    } else {
      FilterAll(ts, m);
    }
  }

  lemma SameTest(ts: seq<Ticket>, p: Ticket -> bool, m: Ticket -> bool)
    requires forall x :: p(x) == m(x)
    ensures Filter(ts, p) == Filter(ts, m)
  {
    FilterSame(ts, p, m);
  }

  /**
   * The list holds exactly the matching tickets, each as often as stored:
   * sorted by createdAt, newest first by default, oldest first for
   * 'createdAt_asc', and in stored order for any other mode.
   */
  lemma ListOrder(ts: seq<Ticket>, q: ListQuery)
    ensures multiset(Ordered(ts, q)) == multiset(Filter(ts, MatchTest(q)))
    ensures SortMode(q) == "createdAt_desc" ==> SortedBy(Ordered(ts, q), CreatedAt, true)
    ensures SortMode(q) == "createdAt_asc" ==> SortedBy(Ordered(ts, q), CreatedAt, false)
    ensures SortMode(q) != "createdAt_desc" && SortMode(q) != "createdAt_asc" ==> Ordered(ts, q) == Filter(ts, MatchTest(q))
  {
    FilteredIsMatches(ts, q);
    var f := Filtered(ts, q);
    if SortMode(q) == "createdAt_desc" {
      OrderByPermutation(f, CreatedAt, true);
      OrderBySorted(f, CreatedAt, true);
    } else if SortMode(q) == "createdAt_asc" {
      OrderByPermutation(f, CreatedAt, false);
      OrderBySorted(f, CreatedAt, false);
    }
  }

  /** Entry k of a list is entry k % limit of page k / limit + 1. */
  lemma PagePosition(all: seq<Ticket>, l: nat, k: nat)
    requires l >= 1 && k < |all|
    ensures var d := PageData(all, Some(k / l + 1), Some(l));
      k % l < |d| && d[k % l] == all[k]
  {
    PageOfIndex(k, l);
    PageEntry(all, k / l + 1, l, k % l);
  }

  /** The page and offset of index k rebuild k. */
  lemma PageOfIndex(k: nat, l: nat)
    requires l >= 1
    ensures k / l + 1 >= 1 && 0 <= k % l < l && (k / l + 1 - 1) * l + k % l == k
  {
  }

  /** Entry m of a page is the entry m places after the page's start. */
  lemma PageEntry(all: seq<Ticket>, page: int, l: int, m: int)
    requires page >= 1 && l >= 1 && 0 <= m < l && (page - 1) * l + m < |all|
    ensures var d := PageData(all, Some(page), Some(l));
      m < |d| && d[m] == all[(page - 1) * l + m]
  {
  }

  /** The page parameters printed as decimal text are read back by parseInt. */
  lemma PageParams(q: ListQuery, page: nat, l: nat)
    ensures var q' := q.(page := Some(NatToString(page)), limit := Some(NatToString(l)));
      NumberParam(q'.page, "1") == Some(page) && NumberParam(q'.limit, "20") == Some(l)
  {
    ParseIntOfNat(page);
    ParseIntOfNat(l);
  }

  /** Ticket number k of the ordered list is entry k % limit of page k / limit + 1. */
  lemma EveryTicketOnItsPage(ts: seq<Ticket>, q: ListQuery, l: nat, k: nat)
    requires l >= 1 && k < |Ordered(ts, q)|
    ensures var b := ListTickets(ts, q.(page := Some(NatToString(k / l + 1)), limit := Some(NatToString(l)))).body;
      k % l < |b.data| && b.data[k % l] == Ordered(ts, q)[k]
  {
    var q' := q.(page := Some(NatToString(k / l + 1)), limit := Some(NatToString(l)));
    PageParams(q, k / l + 1, l);
    var all := Ordered(ts, q);
    assert Ordered(ts, q') == all;
    assert ListTickets(ts, q').body.data == PageData(all, Some(k / l + 1), Some(l));
    PagePosition(all, l, k);
  }

  /** `t => t.id !== id` */
  function IdOtherThan(id: int): Ticket -> bool {
    (t: Ticket) => t.id != id
  }

  /** With unique ids, DELETE takes out exactly the ticket with the id and keeps the others in order. */
  lemma DeleteRemovesExactly(ts: seq<Ticket>, id: int)
    requires UniqueIds(ts) && FindIndex(ts, Some(id)).Some?
    ensures var i := FindIndex(ts, Some(id)).value;
      ts[..i] + ts[i + 1..] == Filter(ts, IdOtherThan(id))
  {
    var i := FindIndex(ts, Some(id)).value;
    var p := IdOtherThan(id);
    var a, b := ts[..i], ts[i + 1..];
    assert ts == (a + [ts[i]]) + b;
    FilterConcat(a + [ts[i]], b, p);
    FilterConcat(a, [ts[i]], p);
    KeptBefore(ts, id, i);
    KeptAfter(ts, id, i);
    assert Filter([ts[i]], p) == [] by {
      assert [ts[i]][..0] == [];
    }
  }

  /** Every ticket before the first with the id passes `t.id !== id`. */
  lemma KeptBefore(ts: seq<Ticket>, id: int, i: nat)
    requires FindIndex(ts, Some(id)) == Some(i)
    ensures Filter(ts[..i], IdOtherThan(id)) == ts[..i]
  {
    var a := ts[..i];
    forall x | x in a ensures IdOtherThan(id)(x) {
      var j :| 0 <= j < |a| && a[j] == x;
      assert !HasId(ts[j], Some(id));
    }
    FilterAll(a, IdOtherThan(id));
  }

  /** With unique ids, every ticket after one with the id passes `t.id !== id`. */
  lemma KeptAfter(ts: seq<Ticket>, id: int, i: nat)
    requires UniqueIds(ts) && i < |ts| && ts[i].id == id
    ensures Filter(ts[i + 1..], IdOtherThan(id)) == ts[i + 1..]
  {
    var b := ts[i + 1..];
    forall x | x in b ensures IdOtherThan(id)(x) {
      var j :| 0 <= j < |b| && b[j] == x;
      assert b[j] == ts[i + 1 + j];
      assert ts[i].id != ts[i + 1 + j].id;
    }
    FilterAll(b, IdOtherThan(id));
  }

  /** An object where the comment text belongs makes the handler throw: the client's two bodies get 500. */
  lemma ObjectTextThrows(text: Remote.CommentBody)
    requires !text.TextBody?
    ensures CommentTextOk(Some(text)) == None
  {
  }

  /** Appending a user with an email no earlier user has makes it the one `find` returns. */
  lemma {:induction false} FindUserAppend(us: seq<User>, u: User)
    requires FindUser(us, u.email).None?
    ensures FindUser(us + [u], u.email) == Some(|us|)
  {
    if us != [] {
      assert (us + [u])[1..] == us[1..] + [u];
      FindUserAppend(us[1..], u);
    }
  }

  /** A registration the server accepts lets the same email and password log in as the new user. */
  lemma RegisterThenLogin(us: seq<User>, b: RegisterBody, env: JsValues.Env, nowMs: nat)
    requires RegisterError(us, b).None?
    ensures var u := NewUser(b, env);
      Login(us + [u], LoginBody(b.email, b.password), nowMs)
        == Response(200, LoginJson(WithoutPassword(u), "mock_token_" + u.id + "_" + NatToString(nowMs)))
  {
    var u := NewUser(b, env);
    FindUserAppend(us, u);
    assert b.email.value != "" by { assert Contains(b.email.value, "@"); }
  }

  /** With unique emails, login succeeds exactly when a user holds both the email and the password. */
  lemma LoginIff(us: seq<User>, b: LoginBody, nowMs: nat)
    requires UniqueEmails(us)
    ensures Login(us, b, nowMs).status == 200 <==>
      (JsValues.Truthy(b.email) && JsValues.Truthy(b.password)
       && exists i :: 0 <= i < |us| && us[i].email == b.email.value && us[i].password == b.password)
  {
    if JsValues.Truthy(b.email) && JsValues.Truthy(b.password) {
      match FindUser(us, b.email.value)
      case None =>
      case Some(k) =>
        forall i | 0 <= i < |us| && us[i].email == b.email.value ensures i == k {
        }
    }
  }
}
