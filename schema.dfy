/**
 * The client's data: the app-level ticket records, the rows of the legacy
 * SQL tables (`tickets`, `comments`, `attachments`, `pending_actions`),
 * the rows of the newer tables (`Tickets`, `TicketComments`,
 * `PendingTicketActions`), and the database object that holds them.
 * database/database.ts creates only the legacy tables; the newer ones are
 * an assumed schema with the columns of interfaces/database.ts.
 */
module Schema {
  import opened Wrappers
  import opened JsValues
  import opened Query

  // ---------------------------------------------------------------------
  // App-level records

  /** A `createdBy` object; parts may be missing once it has been through JSON. */
  datatype Creator = Creator(id: Option<string>, name: Option<string>, email: Option<string>)

  const EmptyCreator := Creator(Some(""), Some(""), Some(""))

  datatype Comment = Comment(id: JsId, text: string, createdAt: string, createdBy: Creator)

  datatype Attachment = Attachment(id: JsId, name: string, url: string, kind: string, size: int)

  /** A ticket as the screens, the caches and the API client pass it around. */
  datatype Ticket = Ticket(
    id: JsId, title: string, description: string, category: string,
    priority: string, status: string, createdAt: string, updatedAt: string,
    comments: seq<Comment>, attachments: seq<Attachment>, createdBy: Option<Creator>)

  /** A `Partial<Ticket>` update: a field that is None is left untouched. */
  datatype Patch = Patch(
    title: Option<string>, description: Option<string>, category: Option<string>,
    priority: Option<string>, status: Option<string>, createdBy: Option<Creator>)

  const NoChange := Patch(None, None, None, None, None, None)

  /** `{ ...ticket, ...updates }` for the fields an update can carry. */
  function Merge(t: Ticket, u: Patch): Ticket {
    t.(title := u.title.GetOr(t.title),
       description := u.description.GetOr(t.description),
       category := u.category.GetOr(t.category),
       priority := u.priority.GetOr(t.priority),
       status := u.status.GetOr(t.status),
       createdBy := if u.createdBy.Some? then u.createdBy else t.createdBy)
  }

  /** The fields of `t` as an update, the part of `{ ...t }` the update paths read. */
  function AsPatch(t: Ticket): Patch {
    Patch(Some(t.title), Some(t.description), Some(t.category), Some(t.priority), Some(t.status), t.createdBy)
  }

  /** The `data` of an AsyncStorage queue entry: ticket fields, or the comment to post. */
  datatype ActionData = TicketFields(fields: Patch) | CommentFields(comment: Comment)

  // ---------------------------------------------------------------------
  // Legacy tables (string ids, `localId`, `isSynced` 0/1)

  /** The untyped ticket object handed to saveTicketLocally. */
  datatype TicketInput = TicketInput(
    id: Option<JsId>, title: Option<string>, description: Option<string>,
    category: Option<string>, priority: Option<string>, status: Option<string>,
    createdAt: Option<string>, updatedAt: Option<string>, createdBy: Option<Creator>)

  function TicketAsInput(t: Ticket): TicketInput {
    TicketInput(Some(t.id), Some(t.title), Some(t.description), Some(t.category), Some(t.priority),
                Some(t.status), Some(t.createdAt), Some(t.updatedAt), t.createdBy)
  }

  /**
   * A row of `tickets`; `serverData` is the JSON of the input. `createdBy`
   * is bound without JSON.stringify: None is the '' bound for a missing
   * author, Some the author object as bound (the driver's text for it is
   * not modelled).
   */
  datatype TicketRow = TicketRow(
    id: string, title: string, description: string, category: string,
    priority: string, status: string, createdAt: string, updatedAt: string,
    createdBy: Option<Creator>, isSynced: int, localId: string, serverData: TicketInput)

  /** A row of `comments`; `createdBy` as in a `tickets` row. */
  datatype CommentRow = CommentRow(
    id: string, ticketId: string, text: string, createdAt: string,
    createdBy: Option<Creator>, isSynced: int, localId: string)

  /** A row of `attachments`. */
  datatype AttachmentRow = AttachmentRow(
    id: string, ticketId: string, name: string, url: string, kind: string,
    size: int, localUri: string, isSynced: int, localId: string)

  datatype ActionType = Create | Update | Delete
  datatype EntityType = TicketEntity | CommentEntity | AttachmentEntity

  /** The `data` object of a queued action. */
  datatype Payload = Payload(fields: Patch, ticketId: Option<string>, text: Option<string>)

  /** A row of `pending_actions` (`id INTEGER PRIMARY KEY AUTOINCREMENT`). */
  datatype QueuedAction = QueuedAction(
    id: nat, kind: ActionType, entityType: EntityType, entityId: string,
    data: Payload, createdAt: string, attempts: int, lastError: Option<string>)

  // ---------------------------------------------------------------------
  // Newer tables (integer ids, nullable `server_id`, `sync_status`)

  datatype SyncStatus = Pending | Synced

  /** A row of `Tickets`, which is also the record getUnsyncedTickets reports. */
  datatype DbTicket = DbTicket(
    id: int, serverId: Option<int>, title: string, description: string,
    category: string, priority: string, status: string, createdAt: string,
    updatedAt: string, createdById: Option<string>, createdByName: Option<string>,
    createdByEmail: Option<string>, syncStatus: SyncStatus, createdAtLocal: Option<string>)

  /** A row of `TicketComments`; `ticketId` None stands for the NaN of a non-numeric id. */
  datatype DbComment = DbComment(
    id: int, ticketId: Option<int>, text: string, createdById: Option<string>,
    createdByName: Option<string>, createdByEmail: Option<string>, createdAt: string,
    syncStatus: SyncStatus, serverId: Option<int>, createdAtLocal: Option<string>)

  /** A row of `PendingTicketActions`; `data` None is an empty column. */
  datatype DbAction = DbAction(
    id: int, actionType: string, ticketId: Option<int>, data: Option<Payload>,
    status: string, retryCount: Option<int>, errorMessage: Option<string>,
    createdAt: Option<string>, lastRetryAt: Option<string>)

  // ---------------------------------------------------------------------
  // Primary keys

  function TicketKey(r: TicketRow): string { r.id }
  function CommentKey(r: CommentRow): string { r.id }
  function AttachmentKey(r: AttachmentRow): string { r.id }
  function ActionKey(r: QueuedAction): nat { r.id }
  function DbTicketKey(r: DbTicket): int { r.id }
  function DbCommentKey(r: DbComment): int { r.id }
  function DbActionKey(r: DbAction): int { r.id }

  // ---------------------------------------------------------------------
  // The database

  /** Largest `id` in TicketComments, 0 when empty. */
  function MaxCommentId(s: seq<DbComment>): (m: int)
    ensures m >= 0 && forall i :: 0 <= i < |s| ==> s[i].id <= m
  {
    if s == [] then 0
    else var m := MaxCommentId(s[..|s| - 1]); if s[|s| - 1].id > m then s[|s| - 1].id else m
  }

  /**
   * One SQLite database: the four legacy tables database/database.ts
   * creates, and beside them the assumed newer tables.
   */
  class Database {
    var tickets: seq<TicketRow>
    var comments: seq<CommentRow>
    var attachments: seq<AttachmentRow>
    var pendingActions: seq<QueuedAction>
    /** The AUTOINCREMENT counter of `pending_actions` (its `sqlite_sequence` entry). */
    var lastActionId: nat
    var dbTickets: seq<DbTicket>
    var dbComments: seq<DbComment>
    var dbActions: seq<DbAction>

    /** The primary keys hold, and AUTOINCREMENT never hands out an id twice. */
    ghost predicate Valid()
      reads this
    {
      Unique(tickets, TicketKey) && Unique(comments, CommentKey) && Unique(attachments, AttachmentKey)
      && Unique(pendingActions, ActionKey)
      && (forall i :: 0 <= i < |pendingActions| ==> pendingActions[i].id <= lastActionId)
      && Unique(dbTickets, DbTicketKey) && Unique(dbComments, DbCommentKey) && Unique(dbActions, DbActionKey)
    }

    /** A freshly created database: the legacy tables and the assumed newer ones empty. */
    constructor ()
      ensures Valid()
      ensures tickets == [] && comments == [] && attachments == [] && pendingActions == []
      ensures lastActionId == 0 && dbTickets == [] && dbComments == [] && dbActions == []
    {
      tickets, comments, attachments, pendingActions := [], [], [], [];
      lastActionId := 0;
      dbTickets, dbComments, dbActions := [], [], [];
    }
  }
}
