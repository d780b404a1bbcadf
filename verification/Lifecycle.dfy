/** Connection states and the designed transition table. */
module Lifecycle {

  datatype Life = Disconnected | Connecting | Connected | Draining | Error | AuthRequired | Starting | Initializing
                | Ready | Degraded | Reconnecting | CircuitOpen | Stopped | Failed

  /** The designed edges. */
  predicate IsValidTransition(from: Life, to: Life) {
    match from
    case Disconnected => to in {Connecting, Starting}
    case Connecting => to in {Connected, Error, AuthRequired, Failed}
    case Connected => to in {Draining, Disconnected, Reconnecting, Failed}
    case Draining => to in {Disconnected, Stopped, Failed}
    case Error => to in {Disconnected, Connecting}
    case AuthRequired => to in {Disconnected, Connecting}
    case Starting => to in {Initializing, Failed, AuthRequired}
    case Initializing => to in {Ready, Failed, AuthRequired}
    case Ready => to in {Degraded, Reconnecting, Draining, Failed, AuthRequired}
    case Degraded => to in {Ready, Reconnecting, Failed}
    case Reconnecting => to in {Initializing, CircuitOpen, Failed}
    case CircuitOpen => to in {Reconnecting, Failed}
    case Stopped => false
    case Failed => false
  }

  /** A transition that draws no warning: a self-loop or a designed edge. */
  predicate OnTable(from: Life, to: Life) {
    from == to || IsValidTransition(from, to)
  }
}
