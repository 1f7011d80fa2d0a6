/** The optimistic toggle of the console: one reducer that decides who may write the value
shown on a button while a click is in flight. Handover and block run on the same one. */
module Handover {
  datatype Toggle =
    /** Nobody is mid-click: the value last told by the server. */
    | Settled(paused: bool, epoch: nat)
    /** A click is in flight: `want` is shown and the server is ignored. */
    | Pending(want: bool, was: bool, epoch: nat)

  datatype Event =
    | Click
    | Confirmed(value: bool)
    | Failed
    /** A poll's view of the server; `issued` is the epoch recorded when it left. */
    | Observed(value: bool, issued: nat)
    | Reset(value: bool)

  const INITIAL := Settled(false, 0)

  function Shown(t: Toggle): bool {
    match t
    case Settled(paused, _) => paused
    case Pending(want, _, _) => want
  }

  predicate Busy(t: Toggle) {
    t.Pending?
  }

  function Reduce(t: Toggle, e: Event): Toggle {
    match e
    case Click => if t.Pending? then t else Pending(!t.paused, t.paused, t.epoch + 1)
    case Confirmed(value) => Settled(value, t.epoch + 1)
    case Failed => Settled(if t.Pending? then t.was else t.paused, t.epoch + 1)
    case Observed(value, issued) =>
      if t.Pending? || issued < t.epoch then t else Settled(value, t.epoch)
    case Reset(value) => Settled(value, t.epoch + 1)
  }
}
