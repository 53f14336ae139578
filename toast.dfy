/**
 * The toast list (src/components/ui/toast.tsx): notifications appended with
 * an id and removed by id, their auto-removal delay, and the style and icon
 * chosen for each kind.
 */
module Toasts {
  import opened Wrappers
  import Seqs

  datatype ToastType = Success | Error | Info | Warning

  datatype Toast = Toast(id: string, kind: ToastType, title: string, message: Option<string>, duration: Option<int>)

  /** What a caller passes to `addToast`: a toast without its id. */
  datatype ToastRequest = ToastRequest(kind: ToastType, title: string, message: Option<string>, duration: Option<int>)

  /** `{ ...toast, id }`. */
  function MakeToast(req: ToastRequest, id: string): (t: Toast)
    ensures t.id == id && t.kind == req.kind && t.title == req.title
    ensures t.message == req.message && t.duration == req.duration
  {
    Toast(id, req.kind, req.title, req.message, req.duration)
  }

  const DefaultDuration: int := 4000

  /** `toast.duration || 4000`: a missing or zero duration falls back to 4000 ms. */
  function AutoRemoveDelay(duration: Option<int>): (ms: int)
    ensures duration.Some? && duration.value != 0 ==> ms == duration.value
    ensures duration.None? || duration.value == 0 ==> ms == DefaultDuration
    ensures ms != 0
  {
    if duration.Some? && duration.value != 0 then duration.value else DefaultDuration
  }

  /** `prev.filter(toast => toast.id !== id)`. */
  function WithoutToast(toasts: seq<Toast>, id: string): (r: seq<Toast>)
    ensures forall i :: 0 <= i < |r| ==> r[i].id != id && r[i] in toasts
    ensures forall i :: 0 <= i < |toasts| && toasts[i].id != id ==> toasts[i] in r
    ensures Seqs.IsSubsequence(r, toasts)
  {
    Seqs.FilterIsSubsequence(toasts, (t: Toast) => t.id != id);
    Seqs.Filter(toasts, (t: Toast) => t.id != id)
  }

  /** Every toast with the id goes; every other toast keeps all its occurrences. */
  lemma WithoutToastCount(toasts: seq<Toast>, id: string, t: Toast)
    ensures multiset(WithoutToast(toasts, id))[t] == if t.id == id then 0 else multiset(toasts)[t]
  {
    Seqs.FilterCount(toasts, (u: Toast) => u.id != id, t);
  }

  /** Removing an id no toast carries leaves the list as it is. */
  lemma RemoveAbsentToast(toasts: seq<Toast>, id: string)
    requires forall i :: 0 <= i < |toasts| ==> toasts[i].id != id
    ensures WithoutToast(toasts, id) == toasts
  {
    Seqs.FilterAllPass(toasts, (t: Toast) => t.id != id);
  }

  /** Removing the same id twice is removing it once. */
  lemma RemoveToastIdempotent(toasts: seq<Toast>, id: string)
    ensures WithoutToast(WithoutToast(toasts, id), id) == WithoutToast(toasts, id)
  {
    Seqs.FilterIdempotent(toasts, (t: Toast) => t.id != id);
  }

  /** A toast added under a fresh id and later removed by its timer leaves the others as they were. */
  lemma AddThenRemoveToast(toasts: seq<Toast>, req: ToastRequest, id: string)
    requires forall i :: 0 <= i < |toasts| ==> toasts[i].id != id
    ensures WithoutToast(toasts + [MakeToast(req, id)], id) == toasts
  {
    Seqs.FilterAppend(toasts, [MakeToast(req, id)], (t: Toast) => t.id != id);
    RemoveAbsentToast(toasts, id);
    assert WithoutToast([MakeToast(req, id)], id) == [];
  }

  /** `getToastStyles`: the colour classes of each kind. */
  function ToastStyles(kind: ToastType): string
  {
    match kind
    case Success => "bg-green-500 text-white border-green-600"
    case Error => "bg-red-500 text-white border-red-600"
    case Warning => "bg-yellow-500 text-black border-yellow-600"
    case Info => "bg-blue-500 text-white border-blue-600"
  }

  /** `getIcon`: the emoji shown for each kind. */
  function ToastIcon(kind: ToastType): string
  {
    match kind
    case Success => "\U{2705}"
    case Error => "\U{274C}"
    case Warning => "\U{26A0}\U{FE0F}"
    case Info => "\U{2139}\U{FE0F}"
  }

  /** Different kinds never share a style or an icon. */
  lemma StylesAndIconsDistinct(a: ToastType, b: ToastType)
    ensures ToastStyles(a) == ToastStyles(b) ==> a == b
    ensures ToastIcon(a) == ToastIcon(b) ==> a == b
  {
    if a != b {
      assert ToastStyles(a)[3] != ToastStyles(b)[3] || ToastStyles(a)[4] != ToastStyles(b)[4];
      assert ToastIcon(a)[0] != ToastIcon(b)[0];
    }
  }

  /** The provider's state: the toasts on screen, oldest first. */
  class ToastProvider {
    var toasts: seq<Toast>

    constructor ()
      ensures toasts == []
    {
      toasts := [];
    }

    /**
     * `addToast`: append the toast under `id` (the random id is a parameter)
     * and return the delay after which its timer calls `RemoveToast(id)`.
     */
    method AddToast(req: ToastRequest, id: string) returns (delay: int)
      modifies this
      ensures toasts == old(toasts) + [MakeToast(req, id)]
      ensures delay == AutoRemoveDelay(req.duration)
    {
      var newToast := MakeToast(req, id);
      toasts := toasts + [newToast];
      delay := if req.duration.Some? && req.duration.value != 0 then req.duration.value else DefaultDuration;
    }

    /** `removeToast`: drop every toast with that id. */
    method RemoveToast(id: string)
      modifies this
      ensures toasts == WithoutToast(old(toasts), id)
    {
      toasts := WithoutToast(toasts, id);
    }
  }

  /** A toast shown and then expired under a fresh id leaves the list as before. */
  method ShowThenExpire(p: ToastProvider, req: ToastRequest, id: string)
    requires forall i :: 0 <= i < |p.toasts| ==> p.toasts[i].id != id
    modifies p
    ensures p.toasts == old(p.toasts)
  {
    var delay := p.AddToast(req, id);
    AddThenRemoveToast(old(p.toasts), req, id);
    p.RemoveToast(id);
  }
}
