/** The call states shared by the providers and the user interface, and how one maps to the other. */
module CallStates {

  datatype Option<+T> = None | Some(value: T)

  /** `CallsCallState`: what a provider reports about a call. */
  datatype CallState = Unknown | Active | Held | Dialing | Alerting | Incoming | Disconnected

  /** `CuiCallState`: what the user interface shows. */
  datatype CuiState = CuiUnknown | CuiCalling | CuiIncoming | CuiActive | CuiHeld | CuiDisconnected

  function ToCui(s: CallState): CuiState
  {
    match s
    case Active => CuiActive
    case Held => CuiHeld
    case Dialing => CuiCalling
    case Alerting => CuiCalling
    case Incoming => CuiIncoming
    case Disconnected => CuiDisconnected
    case Unknown => CuiUnknown
  }

  ghost predicate NoDuplicates<T(!new)>(s: seq<T>)
  {
    forall i, j :: 0 <= i < j < |s| ==> s[i] != s[j]
  }
}
