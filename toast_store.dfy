/**
 * stores/useToastStore.ts: the list of toasts on screen. showToast appends
 * one toast and, for a positive duration, schedules its removal; the
 * removal, like hideToast, drops every toast with that id.
 */
module ToastStore {
  import opened Wrappers
  import opened Query

  datatype ToastType = Success | Failure | Info | Warning

  datatype Toast = Toast(id: string, message: string, kind: ToastType, duration: int)

  /** The duration a toast gets when the caller passes none. */
  const DefaultDuration := 3000

  /** `t => t.id !== id` */
  function NotId(id: string): Toast -> bool {
    (t: Toast) => t.id != id
  }

  /** The list after hideToast(id), or after the automatic removal of `id`. */
  function Hidden(ts: seq<Toast>, id: string): seq<Toast> {
    Filter(ts, NotId(id))
  }

  /** The store. */
  class Store {
    var toasts: seq<Toast>

    constructor ()
      ensures toasts == []
    {
      toasts := [];
    }

    /**
     * showToast(message, type, duration). `id` is the random text the
     * store draws. The result is the delay of the scheduled removal, when
     * one is scheduled: when the duration is positive.
     */
    method ShowToast(message: string, kind: ToastType, duration: Option<int>, id: string) returns (removal: Option<int>)
      modifies this
      ensures toasts == old(toasts) + [Toast(id, message, kind, duration.GetOr(DefaultDuration))]
      ensures removal.Some? <==> duration.GetOr(DefaultDuration) > 0
      ensures removal.Some? ==> removal.value == duration.GetOr(DefaultDuration)
    {
      var d := duration.GetOr(DefaultDuration);
      toasts := toasts + [Toast(id, message, kind, d)];
      removal := if d > 0 then Some(d) else None;
    }

    /** hideToast(id); the scheduled removal runs the same update. */
    method HideToast(id: string)
      modifies this
      ensures toasts == Hidden(old(toasts), id)
    {
      toasts := Filter(toasts, NotId(id));
    }

    /** clearAll() */
    method ClearAll()
      modifies this
      ensures toasts == []
    {
      toasts := [];
    }
  }

  // ---------------------------------------------------------------------
  // Properties

  /** hideToast removes every toast with the id and keeps each other toast, in order. */
  lemma HiddenExactly(ts: seq<Toast>, id: string)
    ensures forall t :: t in Hidden(ts, id) <==> t in ts && t.id != id
    ensures |Hidden(ts, id)| == |ts| - |Filter(ts, (t: Toast) => t.id == id)|
  {
    FilterComplement(ts, id);
  }

  /** The toasts with and without the id split the list between them. */
  lemma {:induction false} FilterComplement(ts: seq<Toast>, id: string)
    ensures |Filter(ts, NotId(id))| + |Filter(ts, (t: Toast) => t.id == id)| == |ts|
  {
    if ts != [] {
      FilterComplement(ts[..|ts| - 1], id);
    }
  }

  /** Hiding an id twice is hiding it once. */
  lemma HideIdempotent(ts: seq<Toast>, id: string)
    ensures Hidden(Hidden(ts, id), id) == Hidden(ts, id)
  {
    FilterIdempotent(ts, NotId(id));
  }

  /**
   * When the drawn id is new, removing it after showToast gives back the
   * list as it was: the automatic removal takes only the toast it was
   * scheduled for.
   */
  lemma ShowThenHide(ts: seq<Toast>, t: Toast)
    requires forall u :: u in ts ==> u.id != t.id
    ensures Hidden(ts + [t], t.id) == ts
  {
    FilterSnoc(ts, t, NotId(t.id));
    FilterAll(ts, NotId(t.id));
  }

  /** Removing one id does not disturb the toasts of another, whichever order the removals run. */
  lemma HidesCommute(ts: seq<Toast>, a: string, b: string)
    ensures Hidden(Hidden(ts, a), b) == Hidden(Hidden(ts, b), a)
  {
    FilterFilter(ts, NotId(a), NotId(b));
    FilterFilter(ts, NotId(b), NotId(a));
    FilterSame(ts, Both(NotId(a), NotId(b)), Both(NotId(b), NotId(a)));
  }
}
