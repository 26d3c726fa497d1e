/**
 * hooks/tickets/useUpdateTicketStatus.ts: `mutate(status)` for one ticket
 * id, over the legacy SQL store. The local row is updated first, when
 * there is one; the API is tried only when the device reports a
 * connection, a rejection is swallowed, and an accepted answer is written
 * over the local row again.
 */
module UpdateStatusHook {
  import opened Wrappers
  import opened Query
  import opened Schema
  import opened Remote
  import opened LegacyStore

  /** `{ status }`: the update the request carries. */
  function StatusPatch(status: string): Patch {
    NoChange.(status := Some(status))
  }

  /** `{ ...currentTicket, status }` as updateTicketLocally reads it. */
  function LocalPatch(v: TicketView, status: string): Patch {
    Patch(Some(v.title), Some(v.description), Some(v.category), Some(v.priority), Some(status), v.createdBy)
  }

  /** The answer as an update: a ticket's fields; an answer of another shape carries none of them. */
  function ReplyPatch(r: Reply): Patch {
    match r
    case TicketReply(t) => AsPatch(t)
    case CommentReply(_) => NoChange
  }

  /** updateTicketLocally(ticketId, u) on the rows. */
  function Updated(rows: seq<TicketRow>, ticketId: string, u: Patch, now: string): seq<TicketRow> {
    MapWhere(rows, r => IdOrLocal(r, ticketId), r => ApplyUpdate(r, u, now))
  }

  /** The first step: the local record, if found, gets its own fields with the new status. */
  function LocalStep(rows: seq<TicketRow>, ticketId: string, status: string, now: string): seq<TicketRow> {
    var hits := TicketsById(rows, ticketId);
    if |hits| == 0 then rows
    else Updated(rows, ticketId, LocalPatch(ViewTicket(hits[0], [], [], false), status), now)
  }

  /** The rows after mutate: the local step, then, connected and accepted, the answer written over them. */
  function StatusRows(rows: seq<TicketRow>, ticketId: string, status: string, connected: bool,
                      script: seq<Result<Reply>>, now1: string, now2: string): seq<TicketRow> {
    var local := LocalStep(rows, ticketId, status, now1);
    if connected && Next(script).0.Ok? then Updated(local, ticketId, ReplyPatch(Next(script).0.value), now2)
    else local
  }

  /** No row named by the id: the lookup is empty. */
  lemma {:induction false} NoHits(rows: seq<TicketRow>, ticketId: string)
    requires forall r :: r in rows ==> !IdOrLocal(r, ticketId)
    ensures TicketsById(rows, ticketId) == []
  {
    if rows != [] {
      assert rows[|rows| - 1] in rows;
      assert forall r :: r in rows[..|rows| - 1] ==> r in rows;
      NoHits(rows[..|rows| - 1], ticketId);
    }
  }

  /** The hook's state for one ticket. */
  class UpdateTicketStatus {
    const ticketId: string
    var isPending: bool

    constructor (ticketId: string)
      ensures this.ticketId == ticketId && !isPending
    {
      this.ticketId := ticketId;
      isPending := false;
    }

    /**
     * mutate(status). `connected` is what NetInfo reports; `env1` and
     * `env2` are the clocks of the two local updates. The local steps
     * cannot fail here, so onSuccess always runs.
     */
    method Mutate(db: Database, api: Api, status: string, connected: bool, env1: JsValues.Env, env2: JsValues.Env)
      returns (outcome: Outcome)
      requires db.Valid()
      modifies this, db`tickets, api
      ensures db.Valid() && !isPending && outcome == Pass
      ensures connected ==>
        api.calls == old(api.calls) + [UpdateTicketCall(ticketId, StatusPatch(status))] && api.script == Next(old(api.script)).1
      ensures !connected ==> api.calls == old(api.calls) && api.script == old(api.script)
      ensures db.tickets == StatusRows(old(db.tickets), ticketId, status, connected, old(api.script), env1.nowIso, env2.nowIso)
    {
      isPending := true;
      var currentTicket := GetTicketByIdLocally(db, ticketId);
      if currentTicket.Some? {
        UpdateTicketLocally(db, ticketId, LocalPatch(currentTicket.value, status), env1);
      } else {
        NoHits(db.tickets, ticketId);
      }
      if connected {
        var updatedTicket := api.Call(UpdateTicketCall(ticketId, StatusPatch(status)));
        if updatedTicket.Ok? {
          UpdateTicketLocally(db, ticketId, ReplyPatch(updatedTicket.value), env2);
        }
      }
      outcome := Pass;
      isPending := false;
    }
  }

  // ---------------------------------------------------------------------
  // Properties

  /**
   * Whatever the connection and the answer, every row the id names ends
   * unsynced with the refreshed stamp and the status last written to it:
   * the requested one, or the server's when an accepted answer carries a
   * ticket. Rows the id does not name are untouched.
   */
  lemma StatusRowsOutcome(rows: seq<TicketRow>, ticketId: string, status: string, connected: bool,
                          script: seq<Result<Reply>>, now1: string, now2: string, i: int)
    requires 0 <= i < |rows|
    ensures var r := StatusRows(rows, ticketId, status, connected, script, now1, now2);
      var accepted := connected && Next(script).0.Ok?;
      |r| == |rows|
      && (!IdOrLocal(rows[i], ticketId) ==> r[i] == rows[i])
      && (IdOrLocal(rows[i], ticketId) ==>
            r[i].isSynced == 0 && r[i].id == rows[i].id && r[i].localId == rows[i].localId
            && r[i].updatedAt == (if accepted then now2 else now1)
            && r[i].status == (if accepted && Next(script).0.value.TicketReply? then Next(script).0.value.ticket.status else status))
  {
    var hits := TicketsById(rows, ticketId);
    if IdOrLocal(rows[i], ticketId) {
      assert rows[i] in hits;
    }
  }

  /** Without a local record the local step changes nothing, and the answer has no row to land on. */
  lemma NoLocalRecordNoChange(rows: seq<TicketRow>, ticketId: string, status: string, connected: bool,
                              script: seq<Result<Reply>>, now1: string, now2: string)
    requires forall r :: r in rows ==> !IdOrLocal(r, ticketId)
    ensures StatusRows(rows, ticketId, status, connected, script, now1, now2) == rows
  {
    var t := StatusRows(rows, ticketId, status, connected, script, now1, now2);
    forall i | 0 <= i < |rows| ensures t[i] == rows[i] {
      assert rows[i] in rows;
      StatusRowsOutcome(rows, ticketId, status, connected, script, now1, now2, i);
    }
  }
}
