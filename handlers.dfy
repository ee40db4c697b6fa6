/** Notification hooks of the control panels. */
module Handlers {
  /** A panel's handler field. `Unset` is the initial value `type(None)`:
      calling it only builds `None` and has no visible effect. `Callback(id)`
      is a handler the notebook registered, known to the model by its `id`. */
  datatype Handler = Unset | Callback(id: nat)

  /** The log of handler calls after one more call of `h`: a registered
      handler adds its id, the initial one adds nothing. */
  function Notify(calls: seq<nat>, h: Handler): seq<nat>
  {
    match h
    case Unset => calls
    case Callback(id) => calls + [id]
  }
}
