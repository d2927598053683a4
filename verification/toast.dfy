/** The single-slot notification of Toast.jsx: the style lookups keyed by the toast's
    type, what is rendered, and the auto-close timer that the component's effect arms
    and clears whenever the toast it is given changes. */
module Toasts {
  import opened Wrappers

  /** `{ type, title, message, duration }`; an empty title and a zero duration stand for
      absent (falsy) fields. */
  datatype ToastMessage = ToastMessage(kind: string, title: string, message: string, duration: nat)

  /** The colour family a toast type is drawn in. */
  datatype Tone = Green | Red | Blue

  /** Reference rule: success is green, error is red, info and every other type blue. */
  function ToneOf(kind: string): Tone {
    if kind == "success" then Green else if kind == "error" then Red else Blue
  }

  function ToneName(t: Tone): string {
    match t
    case Green => "green"
    case Red => "red"
    case Blue => "blue"
  }

  /** The lucide icon `getIcon` picks. */
  datatype IconShape = CheckCircle | XCircle | InfoCircle
  datatype Icon = Icon(shape: IconShape, colourClass: string)

  function GetIcon(kind: string): (r: Icon)
    ensures r.colourClass == "text-" + ToneName(ToneOf(kind)) + "-400"
    ensures r.shape == CheckCircle <==> ToneOf(kind) == Green
    ensures r.shape == XCircle <==> ToneOf(kind) == Red
  {
    match kind
    case "success" => Icon(CheckCircle, "text-green-400")
    case "error" => Icon(XCircle, "text-red-400")
    case "info" => Icon(InfoCircle, "text-blue-400")
    case _ => Icon(InfoCircle, "text-blue-400")
  }

  function GetBorderColor(kind: string): (r: string)
    ensures r == "border-" + ToneName(ToneOf(kind)) + "-500/30"
  {
    match kind
    case "success" => "border-green-500/30"
    case "error" => "border-red-500/30"
    case "info" => "border-blue-500/30"
    case _ => "border-blue-500/30"
  }

  function GetBackgroundColor(kind: string): (r: string)
    ensures r == "bg-" + ToneName(ToneOf(kind)) + "-500/20"
  {
    match kind
    case "success" => "bg-green-500/20"
    case "error" => "bg-red-500/20"
    case "info" => "bg-blue-500/20"
    case _ => "bg-blue-500/20"
  }

  /** `toast.duration || 3000`. */
  function AutoCloseDelay(t: ToastMessage): (ms: nat)
    ensures ms > 0
    ensures t.duration > 0 ==> ms == t.duration
    ensures t.duration == 0 ==> ms == 3000
  {
    if t.duration > 0 then t.duration else 3000
  }

  /** What the component renders for a present toast. */
  datatype View = View(icon: Icon, border: string, background: string,
                       heading: Option<string>, body: string)

  function Render(toast: Option<ToastMessage>): (v: Option<View>)
    ensures v.None? <==> toast.None?
    ensures v.Some? ==> v.value.body == toast.value.message
    ensures v.Some? ==> (v.value.heading.Some? <==> toast.value.title != "")
    ensures v.Some? && v.value.heading.Some? ==> v.value.heading.value == toast.value.title
    ensures v.Some? ==> (v.value.border == GetBorderColor(toast.value.kind)
                         && v.value.background == GetBackgroundColor(toast.value.kind)
                         && v.value.icon == GetIcon(toast.value.kind))
  {
    match toast
    case None => None
    case Some(t) =>
      Some(View(GetIcon(t.kind), GetBorderColor(t.kind), GetBackgroundColor(t.kind),
                if t.title != "" then Some(t.title) else None, t.message))
  }

  /** An armed `setTimeout`: its handle and its delay. */
  datatype Timer = Timer(id: nat, delay: nat)

  /** The parent's `toast` state together with the timer Toast's effect keeps for it. */
  class ToastSlot {
    var toast: Option<ToastMessage>
    var timer: Option<Timer>
    /** Handles handed out so far; a fresh timer takes the next one. */
    var armed: nat

    /** A timer is live exactly while a toast is shown, with that toast's delay, and its
        handle is the latest one handed out. */
    predicate Valid()
      reads this
    {
      && (timer.Some? <==> toast.Some?)
      && (timer.Some? ==> timer.value.delay == AutoCloseDelay(toast.value)
                          && timer.value.id + 1 == armed)
    }

    constructor ()
      ensures Valid() && toast == None && timer == None
    {
      toast := None;
      timer := None;
      armed := 0;
    }

    /** `setToast(next)`: the effect's cleanup clears the previous timer and, when
        `next` is a toast, arms a new one with its delay. */
    method Post(next: Option<ToastMessage>)
      requires Valid()
      modifies this
      ensures Valid()
      ensures toast == next
      ensures next.Some? ==> timer == Some(Timer(old(armed), AutoCloseDelay(next.value)))
      ensures armed == old(armed) + (if next.Some? then 1 else 0)
      ensures old(timer).Some? ==> timer.None? || timer.value.id != old(timer).value.id
    {
      toast := next;
      timer := None;
      if next.Some? {
        timer := Some(Timer(armed, AutoCloseDelay(next.value)));
        armed := armed + 1;
      }
    }

    /** The close button calls `onClose` at once: the toast goes and its timer is
        cleared. */
    method CloseClicked()
      requires Valid()
      modifies this
      ensures Valid()
      ensures toast == None && timer == None && armed == old(armed)
    {
      toast := None;
      timer := None;
    }

    /** Timer `id` expires. Only the live timer can still fire (the others were
        cleared); it calls `onClose`, which clears the toast. */
    method TimerFires(id: nat)
      requires Valid()
      modifies this
      ensures Valid()
      ensures old(timer).Some? && old(timer).value.id == id ==> toast == None && timer == None
      ensures !(old(timer).Some? && old(timer).value.id == id) ==>
        toast == old(toast) && timer == old(timer)
      ensures armed == old(armed)
    {
      if timer.Some? && timer.value.id == id {
        toast := None;
        timer := None;
      }
    }
  }
}
