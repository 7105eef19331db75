/** The user interface data of one call: its state as shown, the signals that announce it, the time
    keeping, and the delay before an incoming call may ring. */
module UiCallData {
  import opened CallStates

  /** The arguments of one state-changed signal. */
  datatype Signal = Signal(newState: CuiState, oldState: CuiState)

  /** `timing` says whether the call's timer exists; `delayed` whether the timeout that activates the
      interface is pending. */
  datatype Data = Data(
    state: CuiState,
    timing: bool,
    delayed: bool,
    uiActive: bool,
    silenced: bool,
    signals: seq<Signal>)

  datatype Input = CallState(state: CallStates.CallState) | DelayExpires | SilenceRing

  function SetState(d: Data, s: CuiState): Data
  {
    if d.state == s then d
    else
      d.(state := s,
         timing := if s.CuiActive? then true else if s.CuiDisconnected? then false else d.timing,
         delayed := d.delayed && !s.CuiDisconnected?,
         signals := d.signals + [Signal(s, d.state)])
  }

  /** Only an incoming call waits before its interface becomes active. */
  function Constructed(inbound: bool, s: CallStates.CallState): Data
  {
    var d := SetState(Data(CuiUnknown, false, false, false, false, []), ToCui(s));
    if !inbound || !d.state.CuiIncoming? then d.(uiActive := true) else d.(delayed := true)
  }

  predicate Enabled(d: Data, i: Input)
  {
    i.DelayExpires? ==> d.delayed
  }

  function Apply(d: Data, i: Input): Data
  {
    match i
    case CallState(s) => SetState(d, ToCui(s))
    case DelayExpires => d.(uiActive := true, delayed := false)
    case SilenceRing => if d.state.CuiIncoming? then d.(silenced := true) else d
  }

  predicate Possible(d: Data, inputs: seq<Input>)
    decreases |inputs|
  {
    inputs == [] || (Enabled(d, inputs[0]) && Possible(Apply(d, inputs[0]), inputs[1..]))
  }

  function Run(d: Data, inputs: seq<Input>): Data
    decreases |inputs|
  {
    if inputs == [] then d else Run(Apply(d, inputs[0]), inputs[1..])
  }

  // ----- What the signals say -----

  /** Each signal takes up where the one before it left off, and reports a real change. */
  ghost predicate Chained(signals: seq<Signal>, from: CuiState, to: CuiState)
  {
    if signals == [] then from == to
    else
      var last := signals[|signals| - 1];
      && last.newState == to && last.oldState != to
      && Chained(signals[..|signals| - 1], from, last.oldState)
  }

  /** Whether the call has become active since it was last disconnected. */
  ghost predicate Timed(signals: seq<Signal>)
  {
    signals != [] &&
    var last := signals[|signals| - 1].newState;
    last.CuiActive? || (!last.CuiDisconnected? && Timed(signals[..|signals| - 1]))
  }

  ghost predicate Ended(signals: seq<Signal>)
  {
    exists k :: 0 <= k < |signals| && signals[k].newState.CuiDisconnected?
  }

  /** The interface is active, or about to be, unless the call was disconnected first. */
  ghost predicate Inv(d: Data)
  {
    && Chained(d.signals, CuiUnknown, d.state)
    && d.timing == Timed(d.signals)
    && !(d.delayed && d.uiActive)
    && (d.delayed ==> !Ended(d.signals))
    && (!d.uiActive && !d.delayed ==> Ended(d.signals))
  }

  lemma SignalKeepsInv(d: Data, s: CuiState)
    requires Inv(d)
    ensures Inv(SetState(d, s))
  {
    if d.state != s {
      var more := d.signals + [Signal(s, d.state)];
      assert more[..|more| - 1] == d.signals;
      if Ended(d.signals) {
        var k :| 0 <= k < |d.signals| && d.signals[k].newState.CuiDisconnected?;
        assert more[k] == d.signals[k];
      }
      if s.CuiDisconnected? {
        assert more[|more| - 1].newState.CuiDisconnected?;
      }
    }
  }

  lemma ConstructedIsSound(inbound: bool, s: CallStates.CallState)
    ensures Inv(Constructed(inbound, s))
  {
    var cui := ToCui(s);
    var signals := [Signal(cui, CuiUnknown)];
    assert signals[..0] == [];
  }

  lemma StepKeepsInv(d: Data, i: Input)
    requires Inv(d) && Enabled(d, i)
    ensures Inv(Apply(d, i))
  {
    if i.CallState? {
      SignalKeepsInv(d, ToCui(i.state));
    }
  }

  /** Whether a run contains the expiry of the delay. */
  predicate Expires(inputs: seq<Input>)
  {
    exists k :: 0 <= k < |inputs| && inputs[k].DelayExpires?
  }

  /** On every run the signals form a chain from the first state to the shown one, the timer runs exactly
      since the call last became active, and the interface of a call becomes active exactly when it was
      from the start or its delay expires; once disconnected first, it never does. */
  lemma {:induction false} ChainOverRuns(d: Data, inputs: seq<Input>)
    requires Inv(d) && Possible(d, inputs)
    ensures var e := Run(d, inputs);
            && Inv(e)
            && (e.uiActive <==> d.uiActive || Expires(inputs))
            && (!d.uiActive && !d.delayed ==> !e.uiActive)
            && (d.silenced ==> e.silenced)
    decreases |inputs|
  {
    if inputs != [] {
      StepKeepsInv(d, inputs[0]);
      ChainOverRuns(Apply(d, inputs[0]), inputs[1..]);
      assert forall k :: 0 < k < |inputs| ==> inputs[k] == inputs[1..][k - 1];
      assert forall k :: 0 <= k < |inputs[1..]| ==> inputs[1..][k] == inputs[k + 1];
    }
  }

  // ----- What single steps mean -----

  /** A new call announces its first state. If it comes in, its interface waits for the delay, so that it does
      not ring yet; any other call is active at once. Its time runs from the start exactly if it is active. */
  lemma ConstructedMeans(inbound: bool, s: CallStates.CallState)
    ensures var waits := inbound && s == Incoming;
            Constructed(inbound, s) ==
            Data(ToCui(s), s == Active, waits, !waits, false,
                 if s == Unknown then [] else [Signal(ToCui(s), CuiUnknown)])
  {
    assert [] + [Signal(ToCui(s), CuiUnknown)] == [Signal(ToCui(s), CuiUnknown)];
  }

  /** A change of the state is announced with the state before. It starts the time of a call that becomes
      active, and ends the time, and any delay, of one that is disconnected. */
  lemma ChangeMeans(d: Data, s: CallStates.CallState)
    ensures var e := Apply(d, CallState(s));
            if d.state == ToCui(s) then e == d
            else e == Data(ToCui(s), s == Active || (d.timing && s != Disconnected), d.delayed && s != Disconnected,
                           d.uiActive, d.silenced, d.signals + [Signal(ToCui(s), d.state)])
  {
  }

  lemma DelayMeans(d: Data)
    ensures var e := Apply(d, DelayExpires); e.uiActive && !e.delayed
    ensures Apply(d, DelayExpires).(uiActive := d.uiActive, delayed := d.delayed) == d
  {
  }

  /** The state in which the call is when an input arrives. */
  function StateAt(d: Data, inputs: seq<Input>, k: nat): CuiState
    requires k <= |inputs|
  {
    Run(d, inputs[..k]).state
  }

  /** The ring of a call is silenced exactly if somebody asks for it while the call comes in. */
  lemma {:induction false} SilencedIff(d: Data, inputs: seq<Input>)
    ensures Run(d, inputs).silenced <==>
            || d.silenced
            || exists k :: 0 <= k < |inputs| && inputs[k] == SilenceRing && StateAt(d, inputs, k) == CuiIncoming
    decreases |inputs|
  {
    if inputs != [] {
      var e, rest := Apply(d, inputs[0]), inputs[1..];
      SilencedIff(e, rest);
      assert inputs[..0] == [] && StateAt(d, inputs, 0) == d.state;
      forall k | 0 <= k < |rest| ensures StateAt(d, inputs, k + 1) == StateAt(e, rest, k) {
        assert inputs[..k + 1][1..] == rest[..k];
      }
      if k :| 0 <= k < |rest| && rest[k] == SilenceRing && StateAt(e, rest, k) == CuiIncoming {
        assert inputs[k + 1] == SilenceRing && StateAt(d, inputs, k + 1) == CuiIncoming;
      }
      if k :| 0 <= k < |inputs| && inputs[k] == SilenceRing && StateAt(d, inputs, k) == CuiIncoming {
        if k > 0 {
          assert rest[k - 1] == SilenceRing && StateAt(e, rest, k - 1) == CuiIncoming;
        }
      }
    }
  }

  /** On every run an incoming call may ring exactly as long as it is incoming, once its delay has expired, and
      unless it was silenced. */
  lemma IncomingMayRingIff(inputs: seq<Input>)
    requires Possible(Constructed(true, Incoming), inputs)
    ensures var d, e := Constructed(true, Incoming), Run(Constructed(true, Incoming), inputs);
            e.state == CuiIncoming && e.uiActive && !e.silenced <==>
            && e.state == CuiIncoming && Expires(inputs)
            && forall k :: 0 <= k < |inputs| && inputs[k] == SilenceRing ==> StateAt(d, inputs, k) != CuiIncoming
  {
    ConstructedIsSound(true, Incoming);
    ConstructedMeans(true, Incoming);
    ChainOverRuns(Constructed(true, Incoming), inputs);
    SilencedIff(Constructed(true, Incoming), inputs);
  }

  class CallsUiCallData {
    var state: CuiState
    var timing: bool
    var delayed: bool
    var uiActive: bool
    var silenced: bool
    ghost var signals: seq<Signal>

    ghost function View(): Data
      reads this
    {
      Data(state, timing, delayed, uiActive, silenced, signals)
    }

    ghost predicate Valid()
      reads this
    {
      Inv(View())
    }

    constructor (inbound: bool, s: CallStates.CallState)
      ensures View() == Constructed(inbound, s) && Valid()
    {
      state, timing, delayed, uiActive, silenced, signals := CuiUnknown, false, false, false, false, [];
      new;
      ConstructedIsSound(inbound, s);
      SetUiState(ToCui(s));
      if !inbound || state != CuiIncoming {
        uiActive := true;
        return;
      }
      delayed := true;
    }

    method SetUiState(newState: CuiState)
      modifies this`state, this`timing, this`delayed, this`signals
      ensures View() == SetState(old(View()), newState)
    {
      if state == newState {
        return;
      }
      var oldState := state;
      state := newState;
      if newState == CuiActive && !timing {
        timing := true;
      } else if newState == CuiDisconnected {
        timing := false;
        delayed := false;
      }
      signals := signals + [Signal(newState, oldState)];
    }

    method OnNotifyState(s: CallStates.CallState)
      requires Valid()
      modifies this
      ensures View() == Apply(old(View()), CallState(s)) && Valid()
    {
      StepKeepsInv(View(), CallState(s));
      SetUiState(ToCui(s));
    }

    method OnDelaySetActive()
      requires Valid() && delayed
      modifies this`uiActive, this`delayed
      ensures View() == Apply(old(View()), DelayExpires) && Valid()
    {
      StepKeepsInv(View(), DelayExpires);
      uiActive := true;
      delayed := false;
    }

    method DoSilenceRing()
      requires Valid()
      modifies this`silenced
      ensures View() == Apply(old(View()), SilenceRing) && Valid()
    {
      StepKeepsInv(View(), SilenceRing);
      if state != CuiIncoming || silenced {
        return;
      }
      silenced := true;
    }
  }
}
