/** The ringer: `state` follows `target` through feedback operations that overlap, are never
    cancelled and may complete in any order. The value `Ring` is the ringer together with the
    operations it has started; the class below is the program text that moves it. */
module Ringer {
  import opened CallStates

  datatype RingState = Inactive | Ringing | RingingSoft | Error

  /** The two libfeedback events the ringer owns. */
  datatype Event = RingingEvent | SoftEvent

  /** How many operations are in flight for each event. */
  datatype Flight = Flight(ringing: nat, soft: nat)
  {
    function Count(e: Event): nat { if e.RingingEvent? then ringing else soft }

    function Plus(e: Event): Flight { if e.RingingEvent? then Flight(ringing + 1, soft) else Flight(ringing, soft + 1) }

    function Minus(e: Event): Flight
      requires Count(e) > 0
    {
      if e.RingingEvent? then Flight(ringing - 1, soft) else Flight(ringing, soft - 1)
    }

    function Total(): nat { ringing + soft }
  }

  datatype EndReason = NotFound | Natural | Expired | Explicit

  datatype UiCall = UiCall(id: nat, state: CuiState, silenced: bool, uiActive: bool)

  /** `triggers` and `ends` are the asynchronous operations in flight. `endAsked` says that an end
      was requested since `state` was entered and that no feedback-ended signal has arrived since.
      `notified` is the state observers were last told about. */
  datatype Ring = Ring(
    calls: seq<UiCall>,
    state: RingState,
    target: RingState,
    frozen: bool,
    notified: RingState,
    triggers: Flight,
    ends: Flight,
    endAsked: bool)

  /** What can happen to a ringer. */
  datatype Input =
    | CallAdded(call: UiCall)
    | CallRemoved(id: nat)
    | CallChanged(call: UiCall)
    | TriggerDone(event: Event, ok: bool)
    | EndDone(event: Event, ok: bool)
    | FeedbackEnded(reason: EndReason)

  predicate Rings(s: RingState)
  {
    s.Ringing? || s.RingingSoft?
  }

  function EventFor(s: RingState): Event
    requires Rings(s)
  {
    if s.Ringing? then RingingEvent else SoftEvent
  }

  function StateFor(e: Event): RingState
  {
    if e.RingingEvent? then Ringing else RingingSoft
  }

  predicate Breaking(reason: EndReason)
  {
    reason.NotFound? || reason.Explicit?
  }

  function TargetStep(r: Ring): Ring
    requires !r.target.Error?
  {
    if r.state == r.target || r.state.Error? then
      r
    else if r.state.Inactive? then
      r.(triggers := r.triggers.Plus(EventFor(r.target)))
    else
      r.(frozen := r.frozen || Rings(r.target),
         ends := r.ends.Plus(EventFor(r.state)),
         endAsked := true)
  }

  function SetState(r: Ring, s: RingState): Ring
    requires !r.target.Error?
  {
    if r.state == s then
      r
    else
      var moved := r.(state := s, endAsked := false);
      var stepped := if s == r.target then moved.(frozen := false) else TargetStep(moved);
      if stepped.frozen then stepped else stepped.(notified := s)
  }

  function SetTarget(r: Ring, t: RingState): Ring
    requires !t.Error?
  {
    if r.target == t then r else TargetStep(r.(target := t))
  }

  function Triggered(r: Ring, e: Event, ok: bool): Ring
    requires !r.target.Error? && r.triggers.Count(e) > 0
  {
    SetState(r.(triggers := r.triggers.Minus(e)), if ok then StateFor(e) else Error)
  }

  function EndFinished(r: Ring, e: Event, ok: bool): Ring
    requires !r.target.Error? && r.ends.Count(e) > 0
  {
    var done := r.(ends := r.ends.Minus(e));
    if ok then done else SetState(done, Error)
  }

  function Ended(r: Ring, reason: EndReason): Ring
    requires !r.target.Error?
  {
    SetState(if Breaking(reason) then r.(target := Inactive) else r, Inactive)
  }

  predicate IsActive(c: UiCall)
  {
    c.state.CuiActive? || c.state.CuiCalling? || c.state.CuiHeld?
  }

  predicate WantsRing(c: UiCall)
  {
    c.state.CuiIncoming? && !c.silenced && c.uiActive
  }

  /** The ring state the present calls ask for. */
  function Desired(calls: seq<UiCall>): RingState
  {
    if !(exists c :: c in calls && WantsRing(c)) then Inactive
    else if exists c :: c in calls && IsActive(c) then RingingSoft
    else Ringing
  }

  function Update(r: Ring): Ring
  {
    if r.state.Error? then r else SetTarget(r, Desired(r.calls))
  }

  function Without(calls: seq<UiCall>, id: nat): seq<UiCall>
  {
    if calls == [] then []
    else if calls[0].id == id then calls[1..]
    else [calls[0]] + Without(calls[1..], id)
  }

  function Replaced(calls: seq<UiCall>, c: UiCall): seq<UiCall>
  {
    seq(|calls|, i requires 0 <= i < |calls| => if calls[i].id == c.id then c else calls[i])
  }

  predicate Enabled(r: Ring, i: Input)
  {
    match i
    case TriggerDone(e, _) => r.triggers.Count(e) > 0
    case EndDone(e, _) => r.ends.Count(e) > 0
    case _ => true
  }

  function Apply(r: Ring, i: Input): Ring
    requires !r.target.Error? && Enabled(r, i)
  {
    match i
    case CallAdded(c) => Update(r.(calls := r.calls + [c]))
    case CallRemoved(id) => Update(r.(calls := Without(r.calls, id)))
    case CallChanged(c) => Update(r.(calls := Replaced(r.calls, c)))
    case TriggerDone(e, ok) => Triggered(r, e, ok)
    case EndDone(e, ok) => EndFinished(r, e, ok)
    case FeedbackEnded(reason) => Ended(r, reason)
  }

  /** A fresh ringer; without libfeedback it starts in the error state. */
  function Initial(feedbackAvailable: bool): Ring
  {
    var s := if feedbackAvailable then Inactive else Error;
    Ring([], s, Inactive, false, s, Flight(0, 0), Flight(0, 0), false)
  }

  predicate Possible(r: Ring, inputs: seq<Input>)
    decreases |inputs|
  {
    inputs == [] ||
    (!r.target.Error? && Enabled(r, inputs[0]) && Possible(Apply(r, inputs[0]), inputs[1..]))
  }

  function Run(r: Ring, inputs: seq<Input>): Ring
    requires Possible(r, inputs)
    decreases |inputs|
  {
    if inputs == [] then r else Run(Apply(r, inputs[0]), inputs[1..])
  }

  /** No lost wakeup: whenever `state` is not what is wanted, something is under way that will
      move it, and it is the right thing. */
  ghost predicate NoLostWakeup(r: Ring)
  {
    && (r.state.Inactive? && Rings(r.target) ==> r.triggers.Count(EventFor(r.target)) > 0)
    && (Rings(r.state) && r.state != r.target ==> r.endAsked)
  }

  /** Observers: unless notifications are frozen they know the state; a pending restart is frozen,
      and outside the error state something is under way that lifts the freeze. */
  ghost predicate HonestNotification(r: Ring)
  {
    && (!r.frozen ==> r.notified == r.state)
    && (r.frozen && r.state.Inactive? ==> r.triggers.Total() > 0)
    && (r.frozen && Rings(r.state) ==> r.endAsked)
    && (Rings(r.state) && Rings(r.target) && r.state != r.target ==> r.frozen)
  }

  ghost predicate Inv(r: Ring)
  {
    && !r.target.Error?
    && NoLostWakeup(r)
    && HonestNotification(r)
    && (r.endAsked ==> Rings(r.state))
  }

  lemma SetTargetKeepsInv(r: Ring, t: RingState)
    requires Inv(r) && !t.Error?
    ensures Inv(SetTarget(r, t))
  {
  }

  lemma TriggerKeepsInv(r: Ring, e: Event, ok: bool)
    requires Inv(r) && r.triggers.Count(e) > 0
    ensures Inv(Triggered(r, e, ok))
  {
  }

  lemma EndKeepsInv(r: Ring, e: Event, ok: bool)
    requires Inv(r) && r.ends.Count(e) > 0
    ensures Inv(EndFinished(r, e, ok))
  {
  }

  lemma EndingKeepsInv(r: Ring, reason: EndReason)
    requires Inv(r)
    ensures Inv(Ended(r, reason))
  {
  }

  lemma StepKeepsInv(r: Ring, i: Input)
    requires Inv(r) && Enabled(r, i)
    ensures Inv(Apply(r, i))
  {
    match i
    case CallAdded(c) =>
      var q := r.(calls := r.calls + [c]);
      SetTargetKeepsInv(q, Desired(q.calls));
    case CallRemoved(id) =>
      var q := r.(calls := Without(r.calls, id));
      SetTargetKeepsInv(q, Desired(q.calls));
    case CallChanged(c) =>
      var q := r.(calls := Replaced(r.calls, c));
      SetTargetKeepsInv(q, Desired(q.calls));
    case TriggerDone(e, ok) => TriggerKeepsInv(r, e, ok);
    case EndDone(e, ok) => EndKeepsInv(r, e, ok);
    case FeedbackEnded(reason) => EndingKeepsInv(r, reason);
  }

  /** The invariant, and with it the absence of lost wakeups, holds after every run. In particular
      the target is never the error state, so no step ever asks for the event of a state that has
      none. */
  lemma {:induction false} RunKeepsInv(r: Ring, inputs: seq<Input>)
    requires Inv(r) && Possible(r, inputs)
    ensures var s := Run(r, inputs); Inv(s) && NoLostWakeup(s) && HonestNotification(s) && !s.target.Error?
    decreases |inputs|
  {
    if inputs != [] {
      StepKeepsInv(r, inputs[0]);
      RunKeepsInv(Apply(r, inputs[0]), inputs[1..]);
    }
  }

  lemma InputAlwaysAccepted(r: Ring, inputs: seq<Input>, i: Input)
    requires Inv(r) && Possible(r, inputs) && Enabled(Run(r, inputs), i)
    ensures Inv(Run(r, inputs))
    ensures Possible(r, inputs + [i]) && Run(r, inputs + [i]) == Apply(Run(r, inputs), i)
    decreases |inputs|
  {
    RunKeepsInv(r, inputs);
    if inputs == [] {
      assert Possible(Apply(r, i), []);
      assert ([i])[1..] == [];
    } else {
      StepKeepsInv(r, inputs[0]);
      InputAlwaysAccepted(Apply(r, inputs[0]), inputs[1..], i);
      assert (inputs + [i])[1..] == inputs[1..] + [i];
    }
  }

  // ----- What one step does -----

  /** Where a step leads. A completion leads to its own state, or to the error state if it failed; an end
      leads to silence, and two of its reasons give up the target; a change of the calls only moves the
      target, and not out of the error state. */
  lemma WhereStepsLead(r: Ring, i: Input)
    requires Inv(r) && Enabled(r, i)
    ensures var s := Apply(r, i);
            match i
            case TriggerDone(e, ok) =>
              && s.target == r.target && s.calls == r.calls
              && s.state == (if !ok then Error else if e.RingingEvent? then Ringing else RingingSoft)
            case EndDone(e, ok) =>
              s.target == r.target && s.calls == r.calls && s.state == (if !ok then Error else r.state)
            case FeedbackEnded(reason) =>
              && s.state == Inactive && s.calls == r.calls
              && s.target == (if reason == NotFound || reason == Explicit then Inactive else r.target)
            case _ =>
              s.state == r.state && (r.state == Error ==> s.target == r.target)
  {
  }

  /** An event is triggered on the way into silence, or in it, when its ring is wanted; its end is asked for on
      the way into its ring, or in it, when that is not wanted. `triggered` and `ended` of these operations
      complete with the step. */
  ghost predicate Starts(r: Ring, s: Ring, e: Event, triggered: nat, ended: nat)
  {
    var ring := if e.RingingEvent? then Ringing else RingingSoft;
    var moved := s.state != r.state || s.target != r.target;
    && s.triggers.Count(e) + triggered
    == r.triggers.Count(e) + (if moved && s.state == Inactive && s.target == ring then 1 else 0)
    && s.ends.Count(e) + ended
    == r.ends.Count(e) + (if moved && s.state == ring && s.target != ring then 1 else 0)
  }

  /** Observers are told of every new state, except from the start of a switch between the two rings until
      the ringer has arrived where it wants to be. */
  ghost predicate Announces(r: Ring, s: Ring)
  {
    var moved := s.state != r.state || s.target != r.target;
    var ended := moved && (s.state == Ringing || s.state == RingingSoft) && s.target != s.state;
    var arrived := s.state != r.state && s.state == s.target;
    && (s.endAsked <==> ended || (r.endAsked && s.state == r.state))
    && (s.frozen <==> !arrived && (r.frozen || (ended && s.target != Inactive)))
    && s.notified == (if s.state != r.state && !s.frozen then s.state else r.notified)
  }

  lemma SetTargetDoes(r: Ring, t: RingState, e: Event)
    requires Inv(r) && !t.Error?
    ensures Starts(r, SetTarget(r, t), e, 0, 0) && Announces(r, SetTarget(r, t))
  {
  }

  lemma TriggeredDoes(r: Ring, e: Event, ok: bool, other: Event)
    requires Inv(r) && r.triggers.Count(e) > 0
    ensures Starts(r, Triggered(r, e, ok), other, if e == other then 1 else 0, 0) && Announces(r, Triggered(r, e, ok))
  {
  }

  lemma EndFinishedDoes(r: Ring, e: Event, ok: bool, other: Event)
    requires Inv(r) && r.ends.Count(e) > 0
    ensures Starts(r, EndFinished(r, e, ok), other, 0, if e == other then 1 else 0)
    ensures Announces(r, EndFinished(r, e, ok))
  {
  }

  lemma EndedDoes(r: Ring, reason: EndReason, e: Event)
    requires Inv(r)
    ensures Starts(r, Ended(r, reason), e, 0, 0) && Announces(r, Ended(r, reason))
  {
  }

  /** What a step starts and announces depends only on where it comes from and where it leads, whatever is in
      flight; and every operation in flight leaves by its own completion. */
  lemma WhatStepsDo(r: Ring, i: Input, e: Event)
    requires Inv(r) && Enabled(r, i)
    ensures Announces(r, Apply(r, i))
    ensures Starts(r, Apply(r, i), e, if i == TriggerDone(e, true) || i == TriggerDone(e, false) then 1 else 0,
                   if i == EndDone(e, true) || i == EndDone(e, false) then 1 else 0)
  {
    match i
    case TriggerDone(f, ok) => TriggeredDoes(r, f, ok, e);
    case EndDone(f, ok) => EndFinishedDoes(r, f, ok, e);
    case FeedbackEnded(reason) => EndedDoes(r, reason, e);
    case CallAdded(c) =>
      var q := r.(calls := r.calls + [c]);
      SetTargetDoes(q, Desired(q.calls), e);
    case CallRemoved(id) =>
      var q := r.(calls := Without(r.calls, id));
      SetTargetDoes(q, Desired(q.calls), e);
    case CallChanged(c) =>
      var q := r.(calls := Replaced(r.calls, c));
      SetTargetDoes(q, Desired(q.calls), e);
  }

  /** The ringer wants to ring if some call is incoming, not silenced and shown, and softly if moreover some
      call is active, calling or held. */
  lemma DesiredIff(calls: seq<UiCall>)
    ensures Desired(calls) == Inactive <==> forall c <- calls :: c.state == CuiIncoming && c.uiActive ==> c.silenced
    ensures Desired(calls) == RingingSoft <==>
            && (exists c <- calls :: c.state == CuiIncoming && c.uiActive && !c.silenced)
            && (exists c <- calls :: c.state == CuiActive || c.state == CuiCalling || c.state == CuiHeld)
    ensures !Desired(calls).Error?
  {
    if c :| c in calls && WantsRing(c) {
      assert c.state == CuiIncoming && c.uiActive && !c.silenced;
    }
    if c :| c in calls && IsActive(c) {
      assert c.state == CuiActive || c.state == CuiCalling || c.state == CuiHeld;
    }
  }

  /** A change of the calls is taken as it is reported, and outside the error state it decides the target. */
  lemma CallsDecideTarget(r: Ring, i: Input)
    requires Inv(r) && (i.CallAdded? || i.CallRemoved? || i.CallChanged?)
    ensures var s := Apply(r, i);
            && (i.CallAdded? ==> s.calls == r.calls + [i.call])
            && (i.CallRemoved? ==> FirstLeft(r.calls, i.id, s.calls))
            && (i.CallChanged? ==>
                  && |s.calls| == |r.calls|
                  && forall k :: 0 <= k < |s.calls| ==>
                       s.calls[k] == if r.calls[k].id == i.call.id then i.call else r.calls[k])
            && (r.state != Error ==> s.target == Desired(s.calls))
  {
    match i
    case CallAdded(c) => UpdateSetsTarget(r.(calls := r.calls + [c]));
    case CallRemoved(id) =>
      WithoutLeaves(r.calls, id);
      UpdateSetsTarget(r.(calls := Without(r.calls, id)));
    case CallChanged(c) => UpdateSetsTarget(r.(calls := Replaced(r.calls, c)));
  }

  /** The first call with the id has left the list, if there was one. */
  ghost predicate FirstLeft(calls: seq<UiCall>, id: nat, left: seq<UiCall>)
  {
    if forall c <- calls :: c.id != id then left == calls
    else exists k :: FirstAt(calls, id, k) && left == calls[..k] + calls[k + 1..]
  }

  ghost predicate FirstAt(calls: seq<UiCall>, id: nat, k: int)
  {
    0 <= k < |calls| && calls[k].id == id && forall j :: 0 <= j < k ==> calls[j].id != id
  }

  lemma {:induction false} WithoutFirst(calls: seq<UiCall>, id: nat, k: nat)
    requires FirstAt(calls, id, k)
    ensures Without(calls, id) == calls[..k] + calls[k + 1..]
  {
    if k == 0 {
      assert calls[..0] + calls[1..] == calls[1..];
    } else {
      var tail := calls[1..];
      assert forall j :: 0 <= j < k ==> tail[j] == calls[j + 1];
      WithoutFirst(tail, id, k - 1);
      assert [calls[0]] + (tail[..k - 1] + tail[k..]) == calls[..k] + calls[k + 1..];
    }
  }

  lemma {:induction false} WithoutNone(calls: seq<UiCall>, id: nat)
    requires forall c <- calls :: c.id != id
    ensures Without(calls, id) == calls
  {
    if calls != [] {
      WithoutNone(calls[1..], id);
    }
  }

  lemma {:induction false} FirstOf(calls: seq<UiCall>, id: nat) returns (k: nat)
    requires exists c <- calls :: c.id == id
    ensures FirstAt(calls, id, k)
  {
    if calls[0].id == id {
      k := 0;
    } else {
      k := FirstOf(calls[1..], id);
      k := k + 1;
    }
  }

  lemma WithoutLeaves(calls: seq<UiCall>, id: nat)
    ensures FirstLeft(calls, id, Without(calls, id))
  {
    if forall c <- calls :: c.id != id {
      WithoutNone(calls, id);
    } else {
      var k := FirstOf(calls, id);
      WithoutFirst(calls, id, k);
    }
  }

  /** On a system without libfeedback nothing is ever started: whatever the calls do, the ringer stays in the
      error state. */
  lemma NothingWithoutFeedback(inputs: seq<Input>)
    requires Possible(Initial(false), inputs) && forall k :: 0 <= k < |inputs| ==> !inputs[k].FeedbackEnded?
    ensures var s := Run(Initial(false), inputs);
            s == Ring(s.calls, Error, Inactive, false, Error, Flight(0, 0), Flight(0, 0), false)
  {
    StaysInError([], inputs);
  }

  lemma {:induction false} StaysInError(calls: seq<UiCall>, inputs: seq<Input>)
    requires Possible(Ring(calls, Error, Inactive, false, Error, Flight(0, 0), Flight(0, 0), false), inputs)
    requires forall k :: 0 <= k < |inputs| ==> !inputs[k].FeedbackEnded?
    ensures var s := Run(Ring(calls, Error, Inactive, false, Error, Flight(0, 0), Flight(0, 0), false), inputs);
            s == Ring(s.calls, Error, Inactive, false, Error, Flight(0, 0), Flight(0, 0), false)
    decreases |inputs|
  {
    if inputs != [] {
      var r := Ring(calls, Error, Inactive, false, Error, Flight(0, 0), Flight(0, 0), false);
      StaysInError(Apply(r, inputs[0]).calls, inputs[1..]);
    }
  }

  /** On a system with libfeedback a new ringer rings for its first incoming call, and tells everybody, as soon
      as the event is triggered. */
  lemma FirstCallRings(call: UiCall)
    requires call.state == CuiIncoming && call.uiActive && !call.silenced
    ensures var asked := Apply(Initial(true), CallAdded(call));
            && asked == Ring([call], Inactive, Ringing, false, Inactive, Flight(1, 0), Flight(0, 0), false)
            && Apply(asked, TriggerDone(RingingEvent, true))
            == Ring([call], Ringing, Ringing, false, Ringing, Flight(0, 0), Flight(0, 0), false)
  {
    assert [call][0] in [call] && Desired([call]) == Ringing;
    assert [] + [call] == [call];
  }

  // ----- Quiescence -----

  /** Nothing in flight and no feedback-ended signal owed. */
  predicate Quiescent(r: Ring)
  {
    r.triggers.Total() == 0 && r.ends.Total() == 0 && !r.endAsked
  }

  /** A ringer at rest has arrived: it shows what was wanted and everybody knows it. The error
      state is the one exception. */
  lemma QuiescentMeansSettled(r: Ring)
    requires Inv(r) && Quiescent(r)
    ensures r.state.Error? || (r.state == r.target == r.notified && !r.frozen)
  {
  }

  function Measure(r: Ring): nat
  {
    3 * r.triggers.Total() + r.ends.Total() + (if r.endAsked then 1 else 0)
  }

  /** Completions, and feedback endings with one of the two reasons that break the ring loop. */
  predicate Quiet(i: Input)
  {
    i.TriggerDone? || i.EndDone? || i == FeedbackEnded(NotFound) || i == FeedbackEnded(Explicit)
  }

  /** One for every operation that completes and every owed signal that arrives; a feedback-ended
      signal nobody waits for costs nothing. */
  function Cost(r: Ring, i: Input): nat
  {
    if i.FeedbackEnded? && !r.endAsked then 0 else 1
  }

  function Work(r: Ring, inputs: seq<Input>): nat
    requires Possible(r, inputs)
    decreases |inputs|
  {
    if inputs == [] then 0 else Cost(r, inputs[0]) + Work(Apply(r, inputs[0]), inputs[1..])
  }

  lemma QuietStepShrinks(r: Ring, i: Input)
    requires Inv(r) && Enabled(r, i) && Quiet(i)
    ensures Measure(Apply(r, i)) + Cost(r, i) <= Measure(r)
  {
  }

  /** Once the calls stop changing and every end is reported as not found or explicit, the number of
      completions still to come is bounded by what is in flight now. */
  lemma {:induction false} QuietRunIsBounded(r: Ring, inputs: seq<Input>)
    requires Inv(r) && Possible(r, inputs)
    requires forall k :: 0 <= k < |inputs| ==> Quiet(inputs[k])
    ensures Measure(Run(r, inputs)) + Work(r, inputs) <= Measure(r)
    decreases |inputs|
  {
    if inputs != [] {
      QuietStepShrinks(r, inputs[0]);
      StepKeepsInv(r, inputs[0]);
      QuietRunIsBounded(Apply(r, inputs[0]), inputs[1..]);
    }
  }

  /** A ringer that is not at rest can always move on, so with `QuietRunIsBounded` every quiet run
      that is not cut short comes to rest: in the wanted state, or in the error state. Either of the
      two reasons will do for every end. */
  lemma QuietRunReachesRest(r: Ring, reason: EndReason) returns (inputs: seq<Input>)
    requires Inv(r) && (reason == NotFound || reason == Explicit)
    ensures Possible(r, inputs) && Quiescent(Run(r, inputs)) && Inv(Run(r, inputs))
    ensures forall k :: 0 <= k < |inputs| ==>
              inputs[k].TriggerDone? || inputs[k].EndDone? || inputs[k] == FeedbackEnded(reason)
    ensures |inputs| == Work(r, inputs) <= Measure(r)
    decreases Measure(r)
  {
    if Quiescent(r) {
      inputs := [];
    } else {
      var i :=
        if r.triggers.ringing > 0 then TriggerDone(RingingEvent, true)
        else if r.triggers.soft > 0 then TriggerDone(SoftEvent, true)
        else if r.ends.ringing > 0 then EndDone(RingingEvent, true)
        else if r.ends.soft > 0 then EndDone(SoftEvent, true)
        else FeedbackEnded(reason);
      StepKeepsInv(r, i);
      QuietStepShrinks(r, i);
      var rest := QuietRunReachesRest(Apply(r, i), reason);
      inputs := [i] + rest;
      assert inputs[1..] == rest;
    }
  }

  /** A ringer outside the error state falls silent, at once and for everybody to see, when its feedback is
      reported as not found or explicitly ended. Nothing new is triggered, whatever was wanted. */
  lemma BreakingEndSilences(r: Ring, reason: EndReason)
    requires Inv(r) && Rings(r.state) && (reason == NotFound || reason == Explicit)
    ensures Apply(r, FeedbackEnded(reason))
         == r.(state := Inactive, target := Inactive, notified := Inactive, frozen := false, endAsked := false)
  {
  }

  function Cycle(reason: EndReason, n: nat): seq<Input>
  {
    if n == 0 then [] else [TriggerDone(RingingEvent, true), FeedbackEnded(reason)] + Cycle(reason, n - 1)
  }

  /** What the end reasons are for. A ringer that wants to ring triggers its event, the event ends, and the
      ringer triggers it again, for as long as one likes, exactly if the ends are reported as natural or
      expired. With either of the other reasons the first end brings it to rest. */
  lemma {:induction false} RingLoopsIff(calls: seq<UiCall>, reason: EndReason, n: nat)
    ensures var r := Ring(calls, Inactive, Ringing, false, Inactive, Flight(1, 0), Flight(0, 0), false);
            && Inv(r)
            && (Possible(r, Cycle(reason, n)) && Run(r, Cycle(reason, n)) == r
                <==> n == 0 || reason == Natural || reason == Expired)
            && (reason == NotFound || reason == Explicit ==>
                  && Possible(r, Cycle(reason, 1))
                  && Quiescent(Run(r, Cycle(reason, 1)))
                  && (n > 1 ==> !Possible(r, Cycle(reason, n))))
  {
    var r := Ring(calls, Inactive, Ringing, false, Inactive, Flight(1, 0), Flight(0, 0), false);
    CycleTurns(calls, reason, 1);
    assert Cycle(reason, 0) == [];
    if n > 0 {
      CycleTurns(calls, reason, n);
      RingLoopsIff(calls, reason, n - 1);
      if n > 1 {
        assert Cycle(reason, n - 1)[0] == TriggerDone(RingingEvent, true);
      }
    }
  }

  /** One turn of the cycle. */
  lemma CycleTurns(calls: seq<UiCall>, reason: EndReason, n: nat)
    requires n > 0
    ensures var r := Ring(calls, Inactive, Ringing, false, Inactive, Flight(1, 0), Flight(0, 0), false);
            var next := if reason == Natural || reason == Expired then r
                        else Ring(calls, Inactive, Inactive, false, Inactive, Flight(0, 0), Flight(0, 0), false);
            && (Possible(r, Cycle(reason, n)) <==> Possible(next, Cycle(reason, n - 1)))
            && (Possible(r, Cycle(reason, n)) ==> Run(r, Cycle(reason, n)) == Run(next, Cycle(reason, n - 1)))
  {
    var r := Ring(calls, Inactive, Ringing, false, Inactive, Flight(1, 0), Flight(0, 0), false);
    var c := Cycle(reason, n);
    var first := Apply(r, c[0]);
    assert first == r.(state := Ringing, notified := Ringing, triggers := Flight(0, 0));
    assert c[1..][0] == FeedbackEnded(reason) && c[1..][1..] == Cycle(reason, n - 1);
  }

  // ----- Does the ring follow the calls? -----

  /** The target is what the calls ask for. */
  ghost predicate Fits(r: Ring)
  {
    r.target == Desired(r.calls)
  }

  predicate CallEvent(i: Input)
  {
    i.CallAdded? || i.CallRemoved? || i.CallChanged?
  }

  function CallsAfter(r: Ring, i: Input): seq<UiCall>
  {
    match i
    case CallAdded(c) => r.calls + [c]
    case CallRemoved(id) => Without(r.calls, id)
    case CallChanged(c) => Replaced(r.calls, c)
    case _ => r.calls
  }

  predicate Silences(i: Input)
  {
    i == FeedbackEnded(NotFound) || i == FeedbackEnded(Explicit)
  }

  /** A change of the calls is dropped in the error state, where the old target does not fit, or an end
      that breaks the loop silences a ring that the calls ask for. */
  predicate Misses(r: Ring, i: Input)
  {
    || (CallEvent(i) && r.state.Error? && r.target != Desired(CallsAfter(r, i)))
    || (Silences(i) && Desired(r.calls) != Inactive)
  }

  /** Any other change of the calls, or an end that breaks the loop when silence is wanted. */
  predicate Repairs(r: Ring, i: Input)
  {
    (CallEvent(i) || Silences(i)) && !Misses(r, i)
  }

  lemma CompletionsLeaveTarget(r: Ring, e: Event, ok: bool)
    requires Inv(r)
    ensures r.triggers.Count(e) > 0 ==>
              Triggered(r, e, ok).target == r.target && Triggered(r, e, ok).calls == r.calls
    ensures r.ends.Count(e) > 0 ==>
              EndFinished(r, e, ok).target == r.target && EndFinished(r, e, ok).calls == r.calls
  {
  }

  lemma EndingSetsTarget(r: Ring, reason: EndReason)
    requires Inv(r)
    ensures Ended(r, reason).calls == r.calls
    ensures Ended(r, reason).target == if reason == NotFound || reason == Explicit then Inactive else r.target
  {
  }

  lemma UpdateSetsTarget(r: Ring)
    requires Inv(r)
    ensures Update(r).calls == r.calls && Update(r).target == if r.state.Error? then r.target else Desired(r.calls)
  {
  }

  lemma StepFitsIff(r: Ring, i: Input)
    requires Inv(r) && Enabled(r, i)
    ensures Fits(Apply(r, i)) <==> !Misses(r, i) && (Fits(r) || Repairs(r, i))
  {
    match i
    case TriggerDone(e, ok) => CompletionsLeaveTarget(r, e, ok);
    case EndDone(e, ok) => CompletionsLeaveTarget(r, e, ok);
    case FeedbackEnded(reason) => EndingSetsTarget(r, reason);
    case _ => UpdateSetsTarget(r.(calls := CallsAfter(r, i)));
  }

  predicate NoneRepairs(r: Ring, inputs: seq<Input>)
    requires Possible(r, inputs)
    decreases |inputs|
  {
    inputs == [] || (!Repairs(r, inputs[0]) && NoneRepairs(Apply(r, inputs[0]), inputs[1..]))
  }

  /** Some step misses what the calls ask for and none repairs it afterwards. */
  predicate MissedForGood(r: Ring, inputs: seq<Input>)
    requires Possible(r, inputs)
    decreases |inputs|
  {
    inputs != [] &&
    var next, rest := Apply(r, inputs[0]), inputs[1..];
    (Misses(r, inputs[0]) && NoneRepairs(next, rest)) || MissedForGood(next, rest)
  }

  lemma {:induction false} FitsFromIff(r: Ring, inputs: seq<Input>)
    requires Inv(r) && Possible(r, inputs)
    ensures !Fits(Run(r, inputs)) <==> (!Fits(r) && NoneRepairs(r, inputs)) || MissedForGood(r, inputs)
    decreases |inputs|
  {
    if inputs != [] {
      StepFitsIff(r, inputs[0]);
      StepKeepsInv(r, inputs[0]);
      FitsFromIff(Apply(r, inputs[0]), inputs[1..]);
    }
  }

  lemma InitialFits(feedbackAvailable: bool)
    ensures Inv(Initial(feedbackAvailable)) && Fits(Initial(feedbackAvailable))
  {
  }

  /** On every run: the target is what the calls ask for, exactly unless a change of the calls was dropped in
      the error state or a wanted ring was silenced by the end of its event, and nothing has repaired that
      since. */
  lemma TargetFitsIff(feedbackAvailable: bool, inputs: seq<Input>)
    requires Possible(Initial(feedbackAvailable), inputs)
    ensures Fits(Run(Initial(feedbackAvailable), inputs)) <==> !MissedForGood(Initial(feedbackAvailable), inputs)
  {
    InitialFits(feedbackAvailable);
    FitsFromIff(Initial(feedbackAvailable), inputs);
  }

  /** And when the ringer comes to rest outside the error state, it does what the calls ask for under the
      same condition. */
  lemma RestFitsIff(feedbackAvailable: bool, inputs: seq<Input>)
    requires Possible(Initial(feedbackAvailable), inputs)
    requires Quiescent(Run(Initial(feedbackAvailable), inputs)) && !Run(Initial(feedbackAvailable), inputs).state.Error?
    ensures var s := Run(Initial(feedbackAvailable), inputs);
            && (s.state == Desired(s.calls) <==> !MissedForGood(Initial(feedbackAvailable), inputs))
            && (s.calls == [] ==> (Rings(s.state) <==> MissedForGood(Initial(feedbackAvailable), inputs)))
  {
    InitialFits(feedbackAvailable);
    RunKeepsInv(Initial(feedbackAvailable), inputs);
    QuiescentMeansSettled(Run(Initial(feedbackAvailable), inputs));
    TargetFitsIff(feedbackAvailable, inputs);
  }

  const RINGING_CALL := UiCall(0, CuiIncoming, false, true)
  const ACTIVE_CALL := UiCall(1, CuiActive, false, true)

  function GhostInput(k: nat): Input
  {
    if k == 0 then CallAdded(ACTIVE_CALL)
    else if k == 1 then CallAdded(RINGING_CALL)
    else if k == 2 then TriggerDone(SoftEvent, true)
    else if k == 3 then CallRemoved(1)
    else if k == 4 then EndDone(SoftEvent, false)
    else if k == 5 then CallRemoved(0)
    else if k == 6 then FeedbackEnded(Expired)
    else TriggerDone(RingingEvent, true)
  }

  /** The first kind of miss makes the ringer ring with no call at all: an end fails, the last call goes
      away unnoticed in the error state, and a late feedback-ended signal leads out of it. */
  lemma RingsWithoutCalls(inputs: seq<Input>)
    requires inputs == seq(8, k requires 0 <= k < 8 => GhostInput(k))
    ensures Possible(Initial(true), inputs)
    ensures Run(Initial(true), inputs).calls == [] && Run(Initial(true), inputs).state == Ringing
  {
    GhostRun(0, inputs);
    assert inputs[0..] == inputs;
  }

  lemma {:induction false} GhostRun(k: nat, inputs: seq<Input>)
    requires k <= 8 && |inputs| == 8 && forall j :: 0 <= j < 8 ==> inputs[j] == GhostInput(j)
    ensures Possible(GhostState(k), inputs[k..]) && Run(GhostState(k), inputs[k..]) == GhostState(8)
    decreases 8 - k
  {
    if k < 8 {
      GhostStep(k);
      GhostRun(k + 1, inputs);
      assert inputs[k..][0] == inputs[k] && inputs[k..][1..] == inputs[k + 1..];
    }
  }

  function GhostState(k: nat): (r: Ring)
    requires k <= 8
    ensures r.target != Error
  {
    var idle, both := Flight(0, 0), [ACTIVE_CALL, RINGING_CALL];
    if k == 0 then Initial(true)
    else if k == 1 then Ring([ACTIVE_CALL], Inactive, Inactive, false, Inactive, idle, idle, false)
    else if k == 2 then Ring(both, Inactive, RingingSoft, false, Inactive, Flight(0, 1), idle, false)
    else if k == 3 then Ring(both, RingingSoft, RingingSoft, false, RingingSoft, idle, idle, false)
    else if k == 4 then Ring([RINGING_CALL], RingingSoft, Ringing, true, RingingSoft, idle, Flight(0, 1), true)
    else if k == 5 then Ring([RINGING_CALL], Error, Ringing, true, RingingSoft, idle, idle, false)
    else if k == 6 then Ring([], Error, Ringing, true, RingingSoft, idle, idle, false)
    else if k == 7 then Ring([], Inactive, Ringing, true, RingingSoft, Flight(1, 0), idle, false)
    else Ring([], Ringing, Ringing, false, Ringing, idle, idle, false)
  }

  lemma GhostStep(k: nat)
    requires k < 8
    ensures Enabled(GhostState(k), GhostInput(k))
    ensures Apply(GhostState(k), GhostInput(k)) == GhostState(k + 1)
  {
    if k < 4 {
      GhostStepUntilRestart(k);
    } else if k == 5 {
      assert Without([RINGING_CALL], 0) == [];
    }
  }

  lemma GhostStepUntilRestart(k: nat)
    requires k < 4
    ensures Enabled(GhostState(k), GhostInput(k))
    ensures Apply(GhostState(k), GhostInput(k)) == GhostState(k + 1)
  {
    var both := [ACTIVE_CALL, RINGING_CALL];
    if k == 0 {
      assert [] + [ACTIVE_CALL] == [ACTIVE_CALL];
    } else if k == 1 {
      assert [ACTIVE_CALL] + [RINGING_CALL] == both;
      assert both[1] in both && both[0] in both;
    } else if k == 3 {
      assert Without(both, 1) == both[1..] == [RINGING_CALL];
      assert [RINGING_CALL][0] in [RINGING_CALL];
    }
  }

  // ----- Restarting -----

  /** Switching between the two ring states goes through an end. It survives, and observers never
      see the gap, exactly when the end is reported with a reason that does not reset the target;
      an end reported as explicit or not found silences the ringer instead. */
  lemma RestartSurvivesIff(r: Ring, reason: EndReason)
    requires Inv(r) && Rings(r.state) && Rings(r.target) && r.state != r.target
    ensures var gap := Ended(r, reason);
            && (gap.target == r.target <==> reason == Natural || reason == Expired)
            && (reason == Natural || reason == Expired ==>
                  && gap.notified == r.notified
                  && gap.triggers.Count(EventFor(r.target)) > 0
                  && var back := Triggered(gap, EventFor(r.target), true);
                     back.state == back.notified == r.target && !back.frozen)
            && (reason == NotFound || reason == Explicit ==>
                  gap.state == gap.target == gap.notified == Inactive && gap.triggers == r.triggers)
  {
  }

  /** A failed end is announced exactly when notifications are not frozen; inside a restart the
      error stays hidden, and later call events no longer change anything. */
  lemma FailedEndAnnouncedIff(r: Ring, e: Event)
    requires Inv(r) && !r.state.Error? && r.notified != Error && r.ends.Count(e) > 0
    ensures var failed := EndFinished(r, e, false);
            && failed.state == Error
            && (failed.notified == Error <==> !r.frozen)
            && (r.frozen ==> failed.notified == r.notified)
            && Update(failed) == failed
  {
  }

  // ----- The ringer object -----

  class CallsRinger {
    var calls: seq<UiCall>
    var state: RingState
    var targetState: RingState
    var freezeStateNotify: bool
    ghost var notified: RingState
    ghost var triggers: Flight
    ghost var ends: Flight
    ghost var endAsked: bool

    ghost function View(): Ring
      reads this
    {
      Ring(calls, state, targetState, freezeStateNotify, notified, triggers, ends, endAsked)
    }

    constructor (feedbackAvailable: bool)
      ensures View() == Initial(feedbackAvailable) && Inv(View())
    {
      calls, targetState, freezeStateNotify := [], Inactive, false;
      state := if feedbackAvailable then Inactive else Error;
      notified := if feedbackAvailable then Inactive else Error;
      triggers, ends, endAsked := Flight(0, 0), Flight(0, 0), false;
    }

    method TargetStateStep()
      requires targetState != Error
      modifies this
      ensures View() == TargetStep(old(View()))
    {
      if state == targetState || state == Error {
        return;
      }
      if state == Inactive {
        var event := GetEventForState(targetState);
        triggers := triggers.Plus(event);
      } else {
        var needsRestart := targetState == Ringing || targetState == RingingSoft;
        if needsRestart {
          freezeStateNotify := true;
        }
        var event := GetEventForState(state);
        ends, endAsked := ends.Plus(event), true;
      }
    }

    method GetEventForState(s: RingState) returns (event: Event)
      requires Rings(s)
      ensures event == EventFor(s)
    {
      match s
      case Ringing => event := RingingEvent;
      case RingingSoft => event := SoftEvent;
    }

    method SetRingState(s: RingState)
      requires targetState != Error
      modifies this
      ensures View() == SetState(old(View()), s)
    {
      if state == s {
        return;
      }
      state, endAsked := s, false;
      if s == targetState {
        freezeStateNotify := false;
      } else {
        TargetStateStep();
      }
      if !freezeStateNotify {
        notified := state;
      }
    }

    method SetTargetState(s: RingState)
      requires s != Error
      modifies this
      ensures View() == SetTarget(old(View()), s)
    {
      if targetState == s {
        return;
      }
      targetState := s;
      TargetStateStep();
    }

    method OnEventTriggered(event: Event, ok: bool)
      requires Inv(View()) && triggers.Count(event) > 0
      modifies this
      ensures View() == Apply(old(View()), TriggerDone(event, ok)) && Inv(View())
    {
      StepKeepsInv(View(), TriggerDone(event, ok));
      triggers := triggers.Minus(event);
      if !ok {
        SetRingState(Error);
        return;
      }
      SetRingState(if event == RingingEvent then Ringing else RingingSoft);
    }

    method OnEventFeedbackEnded(event: Event, ok: bool)
      requires Inv(View()) && ends.Count(event) > 0
      modifies this
      ensures View() == Apply(old(View()), EndDone(event, ok)) && Inv(View())
    {
      StepKeepsInv(View(), EndDone(event, ok));
      ends := ends.Minus(event);
      if !ok {
        SetRingState(Error);
      }
    }

    method OnFeedbackEnded(reason: EndReason)
      requires Inv(View())
      modifies this
      ensures View() == Apply(old(View()), FeedbackEnded(reason)) && Inv(View())
    {
      StepKeepsInv(View(), FeedbackEnded(reason));
      if reason == NotFound || reason == Explicit {
        targetState := Inactive;
      }
      SetRingState(Inactive);
    }

    method HaveActiveCall() returns (found: bool)
      ensures found <==> exists c :: c in calls && IsActive(c)
    {
      for i := 0 to |calls|
        invariant forall k :: 0 <= k < i ==> !IsActive(calls[k])
      {
        if IsActive(calls[i]) {
          return true;
        }
      }
      return false;
    }

    method HaveIncomingCall() returns (found: bool)
      ensures found <==> exists c :: c in calls && WantsRing(c)
    {
      for i := 0 to |calls|
        invariant forall k :: 0 <= k < i ==> !WantsRing(calls[k])
      {
        if calls[i].state == CuiIncoming && !calls[i].silenced && calls[i].uiActive {
          assert WantsRing(calls[i]);
          return true;
        }
      }
      return false;
    }

    method UpdateRing()
      requires targetState != Error
      modifies this
      ensures View() == Update(old(View()))
    {
      if state == Error {
        return;
      }
      var target := Inactive;
      var incoming := HaveIncomingCall();
      if incoming {
        var active := HaveActiveCall();
        target := if !active then Ringing else RingingSoft;
      }
      SetTargetState(target);
    }

    method OnCallAdded(call: UiCall)
      requires Inv(View())
      modifies this
      ensures View() == Apply(old(View()), CallAdded(call)) && Inv(View())
    {
      StepKeepsInv(View(), CallAdded(call));
      calls := calls + [call];
      UpdateRing();
    }

    method OnCallRemoved(id: nat)
      requires Inv(View())
      modifies this
      ensures View() == Apply(old(View()), CallRemoved(id)) && Inv(View())
    {
      StepKeepsInv(View(), CallRemoved(id));
      calls := Without(calls, id);
      UpdateRing();
    }

    /** A call notified a change of its state, its silenced flag or its ui-active flag. */
    method OnCallChanged(call: UiCall)
      requires Inv(View())
      modifies this
      ensures View() == Apply(old(View()), CallChanged(call)) && Inv(View())
    {
      StepKeepsInv(View(), CallChanged(call));
      calls := Replaced(calls, call);
      UpdateRing();
    }
  }
}
