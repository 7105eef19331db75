/** The store of call records: opening its database step by step, and recording one call through save
    failures, retries and time stamps. */
module RecordStore {
  import opened CallStates
  import CallLifeCycle

  // ----- Opening the database -----

  datatype Operation = Open | Migrate | Find | Fetch

  datatype FindResult = FindFailed | FoundNone | FoundSome

  /** `outstanding` lists the operations whose callback has not run; `done` lists what the db-done signal
      reported; `clashes` counts openings that met an existing repository. */
  datatype Store = Store(
    adapter: bool,
    repository: bool,
    busy: int,
    outstanding: seq<Operation>,
    openings: nat,
    done: seq<bool>,
    loads: nat,
    clashes: nat)

  const NEW_STORE := Store(false, false, 0, [], 0, [], 0, 0)

  datatype StoreInput =
    | OpenRepo
    | OpenDone(ok: bool)
    | MigrateDone(ok: bool)
    | FindDone(result: FindResult)
    | FetchDone(ok: bool)

  function Begin(s: Store, op: Operation): Store
  {
    s.(busy := s.busy + 1, outstanding := s.outstanding + [op])
  }

  function Finish(s: Store): Store
  {
    s.(busy := s.busy - 1)
  }

  /** Drops the first occurrence. */
  function Less(ops: seq<Operation>, op: Operation): seq<Operation>
  {
    if ops == [] then [] else if ops[0] == op then ops[1..] else [ops[0]] + Less(ops[1..], op)
  }

  function SetUp(s: Store): Store
  {
    if s.repository then s.(clashes := s.clashes + 1) else Begin(s, Migrate).(repository := true)
  }

  predicate StoreEnabled(s: Store, i: StoreInput)
  {
    match i
    case OpenRepo => true
    case OpenDone(_) => Open in s.outstanding
    case MigrateDone(_) => Migrate in s.outstanding
    case FindDone(_) => Find in s.outstanding
    case FetchDone(_) => Fetch in s.outstanding
  }

  function StoreStep(s: Store, i: StoreInput): Store
  {
    match i
    case OpenRepo => if s.adapter then s else Begin(s, Open).(adapter := true, openings := s.openings + 1)
    case OpenDone(ok) =>
      var t := s.(outstanding := Less(s.outstanding, Open));
      Finish(if ok then SetUp(t) else t.(adapter := false, done := t.done + [false]))
    case MigrateDone(ok) =>
      var t := s.(outstanding := Less(s.outstanding, Migrate));
      var u := if ok then Begin(t, Find) else t.(repository := false, adapter := false);
      Finish(u.(done := u.done + [ok]))
    case FindDone(result) =>
      var t := s.(outstanding := Less(s.outstanding, Find));
      Finish(if result.FoundSome? then Begin(t, Fetch) else t)
    case FetchDone(ok) =>
      var t := s.(outstanding := Less(s.outstanding, Fetch));
      Finish(if ok then t.(loads := t.loads + 1) else t)
  }

  predicate StorePossible(s: Store, inputs: seq<StoreInput>)
    decreases |inputs|
  {
    inputs == [] || (StoreEnabled(s, inputs[0]) && StorePossible(StoreStep(s, inputs[0]), inputs[1..]))
  }

  function StoreRun(s: Store, inputs: seq<StoreInput>): Store
    decreases |inputs|
  {
    if inputs == [] then s else StoreRun(StoreStep(s, inputs[0]), inputs[1..])
  }

  predicate Opening(s: Store)
  {
    Open in s.outstanding || Migrate in s.outstanding
  }

  predicate LastOk(done: seq<bool>)
  {
    |done| > 0 && done[|done| - 1]
  }

  ghost predicate FailuresFirst(done: seq<bool>)
  {
    forall k :: 0 <= k < |done| - 1 ==> !done[k]
  }

  lemma OneMoreDone(done: seq<bool>, ok: bool)
    requires FailuresFirst(done) && !LastOk(done)
    ensures FailuresFirst(done + [ok]) && (LastOk(done + [ok]) <==> ok)
  {
  }

  /** At most one operation is outstanding, and which one says how far the opening got. */
  ghost predicate StoreInv(s: Store)
  {
    && s.busy == |s.outstanding| && s.busy <= 1 && s.clashes == 0
    && (s.repository ==> s.adapter)
    && (!s.adapter ==> s.outstanding == [])
    && (s.adapter && !s.repository ==> s.outstanding == [Open])
    && (Open in s.outstanding ==> !s.repository)
    && s.openings == |s.done| + (if Opening(s) then 1 else 0)
    && FailuresFirst(s.done)
    && (LastOk(s.done) <==> s.repository && !Opening(s))
    && s.loads <= 1
    && (Opening(s) || Find in s.outstanding || Fetch in s.outstanding || !s.repository ==> s.loads == 0)
  }

  lemma StoreStepKeepsInv(s: Store, i: StoreInput)
    requires StoreInv(s) && StoreEnabled(s, i)
    ensures StoreInv(StoreStep(s, i))
  {
    if s.outstanding != [] {
      assert s.outstanding == [s.outstanding[0]];
    }
    match i
    case OpenDone(ok) => if !ok { OneMoreDone(s.done, false); }
    case MigrateDone(ok) => OneMoreDone(s.done, ok);
    case _ =>
  }

  /** After every callback `busy` is the number of outstanding operations and at most 1; no opening meets
      an existing repository; db-done has been sent once for every opening that is over, with success at
      most once and last; the stored records are loaded at most once. */
  lemma {:induction false} BusyCountsOutstanding(s: Store, inputs: seq<StoreInput>)
    requires StoreInv(s) && StorePossible(s, inputs)
    ensures var t := StoreRun(s, inputs);
            && StoreInv(t)
            && t.busy == |t.outstanding| && 0 <= t.busy <= 1
            && t.clashes == 0 && (t.repository ==> t.adapter)
            && |t.done| <= t.openings <= |t.done| + 1
            && FailuresFirst(t.done)
            && t.loads <= 1
    decreases |inputs|
  {
    if inputs != [] {
      StoreStepKeepsInv(s, inputs[0]);
      BusyCountsOutstanding(StoreStep(s, inputs[0]), inputs[1..]);
    }
  }

  /** The chain of opening, step by step. Each callback that succeeds starts the next operation: opening the
      migration, the migration the search, the search the loading, if something was found. A failed opening or
      migration gives the adapter up, so that it can be tried again; and db-done is sent after the migration, or
      after the opening if that fails. */
  lemma StoreStepMeans(s: Store, i: StoreInput)
    requires StoreInv(s) && StoreEnabled(s, i)
    ensures var t := StoreStep(s, i);
            match i
            case OpenRepo =>
              if s.adapter then t == s
              else t == s.(adapter := true, busy := 1, outstanding := [Open], openings := s.openings + 1)
            case OpenDone(ok) =>
              if ok then t == s.(repository := true, outstanding := [Migrate])
              else t == s.(adapter := false, busy := 0, outstanding := [], done := s.done + [false])
            case MigrateDone(ok) =>
              if ok then t == s.(outstanding := [Find], done := s.done + [true])
              else t == s.(adapter := false, repository := false, busy := 0, outstanding := [],
                           done := s.done + [false])
            case FindDone(result) =>
              if result == FoundSome then t == s.(outstanding := [Fetch])
              else t == s.(busy := 0, outstanding := [])
            case FetchDone(ok) =>
              t == s.(busy := 0, outstanding := [], loads := if ok then 1 else 0)
  {
    if s.outstanding != [] {
      assert s.outstanding == [s.outstanding[0]];
    }
    assert [] + [Open] == [Open] && [] + [Migrate] == [Migrate] && [] + [Find] == [Find] && [] + [Fetch] == [Fetch];
  }

  /** An opening in which everything succeeds runs through all four operations, one after the other. */
  lemma OpeningSucceeds(inputs: seq<StoreInput>)
    requires inputs == [OpenRepo, OpenDone(true), MigrateDone(true), FindDone(FoundSome), FetchDone(true)]
    ensures StorePossible(NEW_STORE, inputs)
    ensures StoreRun(NEW_STORE, inputs) == Store(true, true, 0, [], 1, [true], 1, 0)
  {
    OpeningFrom(0, inputs);
    assert inputs[0..] == inputs;
  }

  function OpeningState(k: nat): Store
  {
    if k == 0 then NEW_STORE
    else if k == 1 then Store(true, false, 1, [Open], 1, [], 0, 0)
    else if k == 2 then Store(true, true, 1, [Migrate], 1, [], 0, 0)
    else if k == 3 then Store(true, true, 1, [Find], 1, [true], 0, 0)
    else if k == 4 then Store(true, true, 1, [Fetch], 1, [true], 0, 0)
    else Store(true, true, 0, [], 1, [true], 1, 0)
  }

  lemma OpeningStep(k: nat, input: StoreInput)
    requires k < 5
    requires input == (if k == 0 then OpenRepo else if k == 1 then OpenDone(true) else if k == 2 then MigrateDone(true)
                       else if k == 3 then FindDone(FoundSome) else FetchDone(true))
    ensures StoreEnabled(OpeningState(k), input) && StoreStep(OpeningState(k), input) == OpeningState(k + 1)
  {
    assert StoreInv(OpeningState(k)) && StoreEnabled(OpeningState(k), input);
    StoreStepMeans(OpeningState(k), input);
    assert [] + [true] == [true];
  }

  lemma {:induction false} OpeningFrom(k: nat, inputs: seq<StoreInput>)
    requires inputs == [OpenRepo, OpenDone(true), MigrateDone(true), FindDone(FoundSome), FetchDone(true)] && k <= 5
    ensures StorePossible(OpeningState(k), inputs[k..]) && StoreRun(OpeningState(k), inputs[k..]) == OpeningState(5)
    decreases 5 - k
  {
    if k < 5 {
      OpeningStep(k, inputs[k]);
      OpeningFrom(k + 1, inputs);
      StoreRunOne(OpeningState(k), inputs, k);
    }
  }

  lemma StoreRunOne(s: Store, inputs: seq<StoreInput>, k: nat)
    requires k < |inputs|
    ensures StorePossible(s, inputs[k..]) <==>
            StoreEnabled(s, inputs[k]) && StorePossible(StoreStep(s, inputs[k]), inputs[k + 1..])
    ensures StoreRun(s, inputs[k..]) == StoreRun(StoreStep(s, inputs[k]), inputs[k + 1..])
  {
    assert inputs[k..][0] == inputs[k] && inputs[k..][1..] == inputs[k + 1..];
  }

  /** Stored records are loaded exactly by a loading that succeeds: on every run, once one has. */
  lemma {:induction false} LoadedIff(s: Store, inputs: seq<StoreInput>)
    requires StoreInv(s) && StorePossible(s, inputs)
    ensures StoreRun(s, inputs).loads == 1 <==> s.loads == 1 || FetchDone(true) in inputs
    decreases |inputs|
  {
    if inputs != [] {
      StoreStepKeepsInv(s, inputs[0]);
      StoreStepMeans(s, inputs[0]);
      LoadedIff(StoreStep(s, inputs[0]), inputs[1..]);
      assert inputs == [inputs[0]] + inputs[1..];
    }
  }

  /** When nothing is outstanding, asking for the repository starts an opening exactly when the last one
      did not succeed. */
  lemma RetryIff(s: Store)
    requires StoreInv(s) && s.outstanding == []
    ensures StoreStep(s, OpenRepo).openings == s.openings + 1 <==> !LastOk(s.done)
  {
  }

  lemma NewStoreIsSound()
    ensures StoreInv(NEW_STORE)
  {
  }

  // ----- Recording one call -----

  datatype Stage = Started | Answered | Ended

  /** `None` for the states the source does not expect. */
  function StageOf(s: CuiState): Option<Stage>
  {
    match s
    case CuiCalling => Some(Started)
    case CuiIncoming => Some(Started)
    case CuiActive => Some(Answered)
    case CuiHeld => Some(Answered)
    case CuiDisconnected => Some(Ended)
    case CuiUnknown => None
  }

  datatype Record = Record(start: nat, answered: Option<nat>, end: Option<nat>)

  /** One call in the eyes of the store: `start` and `current` are the data attached to the call,
      `records` all records made for it, `saving` those whose first save is outstanding, `listed` those
      entered into the list. `addedAt` and `failures` keep the history. */
  datatype Life = Life(
    clock: nat,
    ui: CuiState,
    added: bool,
    connected: bool,
    start: Option<nat>,
    records: seq<Record>,
    current: Option<nat>,
    saving: set<nat>,
    listed: seq<nat>,
    addedAt: nat,
    removed: bool,
    failures: nat,
    aborted: bool)

  datatype Input =
    | Tick(duration: nat)
    | CallAdded(repository: bool)
    | StateBecomes(state: CuiState)
    | SaveDone(record: nat, ok: bool)
    | CallRemoved

  predicate Indexed(l: Life)
  {
    l.current.Some? ==> l.current.value < |l.records|
  }

  function NewRecord(l: Life): Life
    requires l.start.Some?
  {
    l.(records := l.records + [Record(l.start.value, None, None)],
       current := Some(|l.records|),
       saving := l.saving + {|l.records|})
  }

  function StampAnswered(l: Life): Life
    requires l.current.Some? && l.current.value < |l.records|
  {
    var r := l.records[l.current.value];
    if r.answered.Some? then l else l.(records := l.records[l.current.value := r.(answered := Some(l.clock))])
  }

  function StampEnd(l: Life): Life
    requires l.current.Some? && l.current.value < |l.records|
  {
    var r := l.records[l.current.value];
    if r.end.Some? then l else l.(records := l.records[l.current.value := r.(end := Some(l.clock))])
  }

  /** What the store does when the call's state changes. */
  function StateChanged(l: Life, new_: CuiState, old_: CuiState): (m: Life)
    requires Indexed(l)
    ensures Indexed(m)
  {
    if l.current.None? then
      if l.start.Some? then NewRecord(l) else l
    else
      match (StageOf(old_), StageOf(new_))
      case (Some(Started), Some(Answered)) => StampAnswered(l)
      case (Some(Started), Some(Ended)) => StampEnd(l)
      case (Some(Answered), Some(Ended)) => StampEnd(l)
      case (Some(_), Some(_)) => l
      case _ => l.(aborted := true)
  }

  predicate Enabled(l: Life, i: Input)
  {
    match i
    case CallAdded(_) => !l.added
    case SaveDone(r, _) => r in l.saving
    case CallRemoved => l.added && !l.removed
    case _ => true
  }

  function Apply(l: Life, i: Input): (m: Life)
    requires Indexed(l)
    ensures Indexed(m)
  {
    if l.aborted then l
    else
      match i
      case Tick(d) => l.(clock := l.clock + d)
      case CallAdded(repository) =>
        var seen := l.(added := true, start := Some(l.clock), addedAt := l.clock);
        if repository then NewRecord(seen).(connected := true) else seen
      case StateBecomes(s) =>
        if s == l.ui then l
        else if l.connected then StateChanged(l.(ui := s), s, l.ui)
        else l.(ui := s)
      case SaveDone(r, ok) =>
        var saved := l.(saving := l.saving - {r});
        if ok then saved.(listed := [r] + saved.listed, start := None)
        else saved.(current := None, failures := saved.failures + 1)
      case CallRemoved =>
        (if l.current.Some? then StampEnd(l) else l).(connected := false, removed := true)
  }

  function Fresh(clock: nat, ui: CuiState): Life
  {
    Life(clock, ui, false, false, None, [], None, {}, [], 0, false, 0, false)
  }

  /** A record begins when the call was added and carries no stamp from the future. */
  predicate RecordOk(l: Life, r: Record)
  {
    && r.start == l.addedAt
    && (r.answered.Some? ==> r.start <= r.answered.value <= l.clock)
    && (r.end.Some? ==> r.start <= r.end.value <= l.clock)
  }

  /** The call's data names the one record that is being saved or listed. */
  ghost predicate Inv(l: Life)
  {
    && Indexed(l)
    && (if l.current.None? then l.saving == {} && l.listed == []
        else if l.listed == [] then l.saving == {l.current.value}
        else l.saving == {} && l.listed == [l.current.value])
    && (l.start.Some? <==> l.added && l.listed == [])
    && (l.start.Some? ==> l.start.value == l.addedAt)
    && (l.connected ==> l.added)
    && (l.added ==> l.addedAt <= l.clock)
    && (!l.added ==> l.records == [] && !l.removed)
    && (l.removed ==> !l.connected)
    && (forall k :: 0 <= k < |l.records| ==> RecordOk(l, l.records[k]))
  }

  lemma NewRecordKeepsInv(l: Life)
    requires Inv(l) && l.current.None? && l.start.Some?
    ensures Inv(NewRecord(l))
  {
    assert l.saving + {|l.records|} == {|l.records|};
  }

  lemma StampsKeepInv(l: Life)
    requires Inv(l) && l.current.Some?
    ensures Inv(StampAnswered(l)) && Inv(StampEnd(l))
  {
    assert RecordOk(l, l.records[l.current.value]);
  }

  lemma StateChangeKeepsInv(l: Life, s: CuiState)
    requires Inv(l) && l.connected && s != l.ui
    ensures Inv(StateChanged(l.(ui := s), s, l.ui))
  {
    var m := l.(ui := s);
    if m.current.Some? {
      StampsKeepInv(m);
    } else if m.start.Some? {
      NewRecordKeepsInv(m);
    }
  }

  lemma StepKeepsInv(l: Life, i: Input)
    requires Inv(l) && Enabled(l, i)
    ensures Inv(Apply(l, i))
  {
    match i
    case StateBecomes(s) => if s != l.ui && l.connected { StateChangeKeepsInv(l, s); }
    case _ =>
  }

  /** Nothing is ever taken back: records stay, and a stamp once set keeps its value. */
  ghost predicate Extends(l: Life, m: Life)
  {
    && |l.records| <= |m.records| && l.clock <= m.clock
    && (forall k :: 0 <= k < |l.records| ==>
          && m.records[k].start == l.records[k].start
          && (l.records[k].answered.Some? ==> m.records[k].answered == l.records[k].answered)
          && (l.records[k].end.Some? ==> m.records[k].end == l.records[k].end))
    && (l.listed != [] ==> m.listed == l.listed)
  }

  lemma StepExtends(l: Life, i: Input)
    requires Inv(l) && Enabled(l, i)
    ensures Extends(l, Apply(l, i))
  {
  }

  /** A state that is reported again is no change and does nothing, whether or not there is a record yet. A change
      from or to the unknown state is the one that the program does not expect: it fails exactly if it sees one
      of a call that has a record. */
  lemma FailsIff(l: Life, i: Input)
    requires Inv(l) && !l.aborted && Enabled(l, i)
    ensures Apply(l, i).aborted <==>
            && i.StateBecomes? && i.state != l.ui && l.connected && l.current.Some?
            && (i.state == CuiUnknown || l.ui == CuiUnknown)
    ensures i == StateBecomes(l.ui) ==> Apply(l, i) == l
  {
  }

  predicate Possible(l: Life, inputs: seq<Input>)
    requires Indexed(l)
    decreases |inputs|
  {
    inputs == [] || (Enabled(l, inputs[0]) && Possible(Apply(l, inputs[0]), inputs[1..]))
  }

  function Run(l: Life, inputs: seq<Input>): (m: Life)
    requires Indexed(l) && Possible(l, inputs)
    ensures Indexed(m)
    decreases |inputs|
  {
    if inputs == [] then l else Run(Apply(l, inputs[0]), inputs[1..])
  }

  /** On every run a call contributes at most one record to the list, at most one save is outstanding, and
      no stamp is overwritten. */
  lemma {:induction false} RecordedOnce(l: Life, inputs: seq<Input>)
    requires Inv(l) && Possible(l, inputs)
    ensures var m := Run(l, inputs);
            Inv(m) && Extends(l, m) && |m.listed| <= 1 && |m.saving| <= 1 && (m.listed != [] ==> m.saving == {})
    decreases |inputs|
  {
    if inputs != [] {
      StepKeepsInv(l, inputs[0]);
      StepExtends(l, inputs[0]);
      RecordedOnce(Apply(l, inputs[0]), inputs[1..]);
    }
  }

  // ----- The order of the stamps -----

  /** A disconnected call stays disconnected, as dummy calls do. */
  predicate StaysEnded(l: Life, i: Input)
  {
    i.StateBecomes? && l.ui.CuiDisconnected? ==> i.state.CuiDisconnected?
  }

  /** An end stamp means that the call has ended or left the store, so no answer can follow it. */
  ghost predicate Ordered(l: Life)
  {
    && (forall k :: 0 <= k < |l.records| && l.records[k].end.Some? ==>
          (l.ui.CuiDisconnected? || !l.connected)
          && (l.records[k].answered.Some? ==> l.records[k].answered.value <= l.records[k].end.value))
    && (l.added && !l.connected && !l.removed ==> l.records == [])
  }

  lemma StepKeepsOrder(l: Life, i: Input)
    requires Inv(l) && Ordered(l) && Enabled(l, i) && StaysEnded(l, i)
    ensures Ordered(Apply(l, i))
  {
  }

  predicate AllStayEnded(l: Life, inputs: seq<Input>)
    requires Indexed(l) && Possible(l, inputs)
    decreases |inputs|
  {
    inputs == [] || (StaysEnded(l, inputs[0]) && AllStayEnded(Apply(l, inputs[0]), inputs[1..]))
  }

  /** For a call that never leaves the disconnected state, every record has start <= answered <= end. */
  lemma {:induction false} StampsInOrder(l: Life, inputs: seq<Input>)
    requires Inv(l) && Ordered(l) && Possible(l, inputs) && AllStayEnded(l, inputs)
    ensures forall k :: 0 <= k < |Run(l, inputs).records| ==>
              var r := Run(l, inputs).records[k];
              && (r.answered.Some? ==> r.start <= r.answered.value)
              && (r.end.Some? ==> r.start <= r.end.value)
              && (r.answered.Some? && r.end.Some? ==> r.answered.value <= r.end.value)
    decreases |inputs|
  {
    if inputs != [] {
      StepKeepsInv(l, inputs[0]);
      StepKeepsOrder(l, inputs[0]);
      StampsInOrder(Apply(l, inputs[0]), inputs[1..]);
    }
  }

  ghost predicate StampsOrdered(l: Life)
  {
    forall k :: 0 <= k < |l.records| && l.records[k].answered.Some? && l.records[k].end.Some? ==>
      l.records[k].answered.value <= l.records[k].end.value
  }

  /** A followed call is answered after its record was ended: only a call that came back gets there. */
  predicate AnswersLate(l: Life, i: Input)
    requires Indexed(l)
  {
    && !l.aborted && l.connected && l.current.Some?
    && i.StateBecomes? && StageOf(l.ui) == Some(Started) && StageOf(i.state) == Some(Answered)
    && var r := l.records[l.current.value];
       r.answered.None? && r.end.Some? && r.end.value < l.clock
  }

  /** One step breaks the order exactly if it answers late. */
  lemma StepBreaksOrderIff(l: Life, i: Input)
    requires Inv(l) && Enabled(l, i) && StampsOrdered(l)
    ensures StampsOrdered(Apply(l, i)) <==> !AnswersLate(l, i)
  {
    var m := Apply(l, i);
    if AnswersLate(l, i) {
      var k := l.current.value;
      assert m.records[k].answered == Some(l.clock) && m.records[k].end == l.records[k].end;
    }
  }

  predicate NoneAnswersLate(l: Life, inputs: seq<Input>)
    requires Indexed(l) && Possible(l, inputs)
    decreases |inputs|
  {
    inputs == [] || (!AnswersLate(l, inputs[0]) && NoneAnswersLate(Apply(l, inputs[0]), inputs[1..]))
  }

  lemma {:induction false} BrokenOrderStays(l: Life, inputs: seq<Input>)
    requires Inv(l) && Possible(l, inputs) && !StampsOrdered(l)
    ensures !StampsOrdered(Run(l, inputs))
  {
    RecordedOnce(l, inputs);
    var k :| 0 <= k < |l.records| && l.records[k].answered.Some? && l.records[k].end.Some?
             && l.records[k].end.value < l.records[k].answered.value;
    var m := Run(l, inputs);
    assert m.records[k].answered == l.records[k].answered && m.records[k].end == l.records[k].end;
  }

  /** On every run, of any call: answered <= end in all records exactly if no step answered late. */
  lemma {:induction false} StampsOrderedIff(l: Life, inputs: seq<Input>)
    requires Inv(l) && Possible(l, inputs) && StampsOrdered(l)
    ensures StampsOrdered(Run(l, inputs)) <==> NoneAnswersLate(l, inputs)
    decreases |inputs|
  {
    if inputs != [] {
      StepKeepsInv(l, inputs[0]);
      StepBreaksOrderIff(l, inputs[0]);
      if AnswersLate(l, inputs[0]) {
        BrokenOrderStays(Apply(l, inputs[0]), inputs[1..]);
      } else {
        StampsOrderedIff(Apply(l, inputs[0]), inputs[1..]);
      }
    }
  }

  /** A call that comes back from the disconnected state can carry an answer later than its end. */
  lemma ComingBackBreaksOrder(clock: nat, rang: nat, away: nat)
    requires away > 0
    ensures var back := CameBack(clock, rang, away);
            var r := Apply(back, StateBecomes(CuiActive)).records[0];
            r.answered.Some? && r.end.Some? && r.end.value < r.answered.value
  {
    var back := CameBack(clock, rang, away);
    assert back.records == [Record(clock, None, Some(clock + rang))] && back.clock == clock + rang + away;
  }

  /** Recorded while it rings, ended, and ringing again after a while. */
  function CameBack(clock: nat, rang: nat, away: nat): (l: Life)
    ensures Inv(l) && l.ui.CuiIncoming? && l.connected && l.current == Some(0)
    ensures l.records == [Record(clock, None, Some(clock + rang))] && l.clock == clock + rang + away && !l.aborted
  {
    var recorded := Apply(Apply(Fresh(clock, CuiIncoming), CallAdded(true)), SaveDone(0, true));
    var begun := [Record(clock, None, None)];
    assert recorded == Life(clock, CuiIncoming, true, true, None, begun, Some(0), {}, [0], clock, false, 0, false);
    var ended := Apply(Apply(recorded, Tick(rang)), StateBecomes(CuiDisconnected));
    var once := [Record(clock, None, Some(clock + rang))];
    assert ended ==
           Life(clock + rang, CuiDisconnected, true, true, None, once, Some(0), {}, [0], clock, false, 0, false);
    Apply(Apply(ended, StateBecomes(CuiIncoming)), Tick(away))
  }

  // ----- Which stamps the record carries -----

  datatype Stamp = AnsweredStamp | EndStamp

  function StampOf(r: Record, s: Stamp): Option<nat>
  {
    match s
    case AnsweredStamp => r.answered
    case EndStamp => r.end
  }

  /** The record the call has now carries the stamp. */
  predicate Carries(l: Life, s: Stamp)
    requires Indexed(l)
  {
    l.current.Some? && StampOf(l.records[l.current.value], s).Some?
  }

  /** A step that asks for the stamp while the call has a record: an answer is seen by a connected store,
      an end is seen by one too or is supplied when the call is removed. */
  predicate Marks(l: Life, i: Input, s: Stamp)
  {
    && !l.aborted && l.current.Some?
    && match i
       case StateBecomes(state) =>
         var before, after := StageOf(l.ui), StageOf(state);
         l.connected && (match s
                         case AnsweredStamp => before == Some(Started) && after == Some(Answered)
                         case EndStamp => (before == Some(Started) || before == Some(Answered)) && after == Some(Ended))
       case CallRemoved => s.EndStamp?
       case _ => false
  }

  /** A save fails: the call loses its record. */
  predicate Fails(l: Life, i: Input)
  {
    !l.aborted && i.SaveDone? && !i.ok
  }

  lemma StepCarriesIff(l: Life, i: Input, s: Stamp)
    requires Inv(l) && Enabled(l, i)
    ensures Carries(Apply(l, i), s) <==> !Fails(l, i) && (Carries(l, s) || Marks(l, i, s))
  {
  }

  predicate NoneFails(l: Life, inputs: seq<Input>)
    requires Indexed(l) && Possible(l, inputs)
    decreases |inputs|
  {
    inputs == [] || (!Fails(l, inputs[0]) && NoneFails(Apply(l, inputs[0]), inputs[1..]))
  }

  /** Some step marks the record and no save fails from then on. */
  predicate MarkedAndKept(l: Life, inputs: seq<Input>, s: Stamp)
    requires Indexed(l) && Possible(l, inputs)
    decreases |inputs|
  {
    inputs != [] &&
    var next, rest := Apply(l, inputs[0]), inputs[1..];
    (Marks(l, inputs[0], s) && NoneFails(next, rest)) || MarkedAndKept(next, rest, s)
  }

  /** On every run, of any call: the call's record carries a stamp exactly if the change it stands for was
      seen while the call had a record, and no save has failed since. */
  lemma {:induction false} CarriesIff(l: Life, inputs: seq<Input>, s: Stamp)
    requires Inv(l) && Possible(l, inputs)
    ensures Carries(Run(l, inputs), s) <==> (Carries(l, s) && NoneFails(l, inputs)) || MarkedAndKept(l, inputs, s)
    decreases |inputs|
  {
    if inputs != [] {
      StepKeepsInv(l, inputs[0]);
      StepCarriesIff(l, inputs[0], s);
      CarriesIff(Apply(l, inputs[0]), inputs[1..], s);
    }
  }

  /** So for the record that ends up in the list. */
  lemma ListedStampIff(clock: nat, ui: CuiState, inputs: seq<Input>, s: Stamp)
    requires Possible(Fresh(clock, ui), inputs) && Run(Fresh(clock, ui), inputs).listed != []
    ensures var m := Run(Fresh(clock, ui), inputs);
            && |m.listed| == 1 && m.listed[0] < |m.records|
            && (StampOf(m.records[m.listed[0]], s).Some? <==> MarkedAndKept(Fresh(clock, ui), inputs, s))
  {
    FreshIsSound(clock, ui);
    RecordedOnce(Fresh(clock, ui), inputs);
    CarriesIff(Fresh(clock, ui), inputs, s);
  }

  // ----- What the stamps tell -----

  /** The stages only move forward, and the call is added before it is answered. */
  predicate Forward(l: Life, i: Input)
  {
    match i
    case CallAdded(_) => StageOf(l.ui) == Some(Started)
    case StateBecomes(s) =>
      (match (StageOf(l.ui), StageOf(s))
       case (Some(Started), Some(_)) => true
       case (Some(Answered), Some(Answered)) => true
       case (Some(Answered), Some(Ended)) => true
       case (Some(Ended), Some(Ended)) => true
       case _ => false)
    case _ => true
  }

  /** As long as no save failed there is one record, and its stamps say which stage the call is in. */
  ghost predicate TellsStage(l: Life)
  {
    && !l.aborted
    && (l.connected && l.failures == 0 ==>
          && l.current == Some(0) && |l.records| == 1 && StageOf(l.ui).Some?
          && (StageOf(l.ui) == Some(Started) ==> l.records[0].answered.None? && l.records[0].end.None?)
          && (StageOf(l.ui) == Some(Answered) ==> l.records[0].answered.Some? && l.records[0].end.None?)
          && (StageOf(l.ui) == Some(Ended) ==> l.records[0].end.Some?))
  }

  lemma StepTellsStage(l: Life, i: Input)
    requires Inv(l) && TellsStage(l) && Enabled(l, i) && Forward(l, i)
    ensures TellsStage(Apply(l, i))
  {
  }

  predicate AllForward(l: Life, inputs: seq<Input>)
    requires Indexed(l) && Possible(l, inputs)
    decreases |inputs|
  {
    inputs == [] || (Forward(l, inputs[0]) && AllForward(Apply(l, inputs[0]), inputs[1..]))
  }

  /** For a call that goes forward through its stages, whose saves do not fail, the record is answered
      and ended exactly as the call is. */
  lemma {:induction false} StampsTellStage(l: Life, inputs: seq<Input>)
    requires Inv(l) && TellsStage(l) && Possible(l, inputs) && AllForward(l, inputs)
    ensures TellsStage(Run(l, inputs))
    decreases |inputs|
  {
    if inputs != [] {
      StepKeepsInv(l, inputs[0]);
      StepTellsStage(l, inputs[0]);
      StampsTellStage(Apply(l, inputs[0]), inputs[1..]);
    }
  }

  /** Whatever fails, a record carries no stamp of a stage its call has not reached. */
  ghost predicate NoEarlyStamp(l: Life)
    requires Indexed(l)
  {
    && !l.aborted
    && (l.connected ==> StageOf(l.ui).Some?)
    && (l.connected && l.current.Some? ==>
          var r := l.records[l.current.value];
          && (StageOf(l.ui) == Some(Started) ==> r.answered.None? && r.end.None?)
          && (StageOf(l.ui) == Some(Answered) ==> r.end.None?))
  }

  lemma StepStampsNoEarly(l: Life, i: Input)
    requires Inv(l) && NoEarlyStamp(l) && Enabled(l, i) && Forward(l, i)
    ensures NoEarlyStamp(Apply(l, i))
  {
  }

  lemma {:induction false} RunStampsNoEarly(l: Life, inputs: seq<Input>)
    requires Inv(l) && NoEarlyStamp(l) && Possible(l, inputs) && AllForward(l, inputs)
    ensures NoEarlyStamp(Run(l, inputs))
    decreases |inputs|
  {
    if inputs != [] {
      StepKeepsInv(l, inputs[0]);
      StepStampsNoEarly(l, inputs[0]);
      RunStampsNoEarly(Apply(l, inputs[0]), inputs[1..]);
    }
  }

  /** For a call that goes forward, failures or not: its record is never stamped early; once the call is
      answered the record says so exactly if the answer was seen with a record and no save failed since,
      and likewise once it has ended. */
  lemma StampsTellStageIff(clock: nat, ui: CuiState, inputs: seq<Input>)
    requires Possible(Fresh(clock, ui), inputs) && AllForward(Fresh(clock, ui), inputs)
    ensures var l, m := Fresh(clock, ui), Run(Fresh(clock, ui), inputs);
            m.connected && m.current.Some? ==>
              var r := m.records[m.current.value];
              && (StageOf(m.ui) == Some(Started) ==> r.answered.None? && r.end.None?)
              && (StageOf(m.ui) == Some(Answered) ==>
                    r.end.None? && (r.answered.Some? <==> MarkedAndKept(l, inputs, AnsweredStamp)))
              && (StageOf(m.ui) == Some(Ended) ==> (r.end.Some? <==> MarkedAndKept(l, inputs, EndStamp)))
  {
    FreshIsSound(clock, ui);
    RunStampsNoEarly(Fresh(clock, ui), inputs);
    CarriesIff(Fresh(clock, ui), inputs, AnsweredStamp);
    CarriesIff(Fresh(clock, ui), inputs, EndStamp);
  }

  // ----- Calls of the dummy provider, from end to end -----

  /** A step of the whole life cycle, or something that only the store sees: time, or the end of a save. */
  datatype Event = LifeCycle(step: CallLifeCycle.Input) | Passes(duration: nat) | Saved(record: nat, ok: bool)

  predicate EventEnabled(w: CallLifeCycle.World, e: Event)
  {
    e.LifeCycle? ==> CallLifeCycle.Enabled(w, e.step)
  }

  function Advanced(w: CallLifeCycle.World, e: Event): CallLifeCycle.World
    requires EventEnabled(w, e)
  {
    if e.LifeCycle? then CallLifeCycle.Apply(w, e.step) else w
  }

  predicate EventsPossible(w: CallLifeCycle.World, events: seq<Event>)
    decreases |events|
  {
    events == [] || (EventEnabled(w, events[0]) && EventsPossible(Advanced(w, events[0]), events[1..]))
  }

  /** What an event is to the record of one call. */
  function Seen(w: CallLifeCycle.World, e: Event, c: CallLifeCycle.CallId): seq<Input>
    requires EventEnabled(w, e)
  {
    match e
    case Passes(d) => [Tick(d)]
    case Saved(r, ok) => [SaveDone(r, ok)]
    case LifeCycle(i) =>
      var v := CallLifeCycle.Apply(w, i);
      if c !in w.shown then []
      else if c !in v.shown then [CallRemoved]
      else if v.shown[c] != w.shown[c] then [StateBecomes(v.shown[c])]
      else []
  }

  /** The record's side of a run of the whole life cycle. */
  function Projected(w: CallLifeCycle.World, events: seq<Event>, c: CallLifeCycle.CallId): seq<Input>
    requires EventsPossible(w, events)
    decreases |events|
  {
    if events == [] then [] else Seen(w, events[0], c) + Projected(Advanced(w, events[0]), events[1..], c)
  }

  /** Saves end only after they were started; nothing else is asked of the inputs. */
  predicate SavesStarted(l: Life, inputs: seq<Input>)
    requires Indexed(l)
    decreases |inputs|
  {
    inputs == [] || ((inputs[0].SaveDone? ==> Enabled(l, inputs[0])) && SavesStarted(Apply(l, inputs[0]), inputs[1..]))
  }

  /** The call's record and the whole agree on the call. */
  ghost predicate Linked(w: CallLifeCycle.World, l: Life, c: CallLifeCycle.CallId)
  {
    && CallLifeCycle.Inv(w) && Inv(l) && c in w.calls && l.added && !l.aborted
    && (c in w.shown <==> !l.removed) && (c in w.shown ==> l.ui == w.shown[c])
  }

  lemma ForwardByPhase(before: CallState, after: CallState, l: Life)
    requires !before.Unknown? && !after.Unknown? && CallLifeCycle.Phase(before) <= CallLifeCycle.Phase(after)
    requires l.ui == ToCui(before)
    ensures Forward(l, StateBecomes(ToCui(after))) && StaysEnded(l, StateBecomes(ToCui(after)))
  {
  }

  /** A step of the life cycle changes what is shown of a call only forward, and shows it no more once it
      was removed. */
  lemma ShownGoesForward(w: CallLifeCycle.World, i: CallLifeCycle.Input, c: CallLifeCycle.CallId, l: Life)
    requires Linked(w, l, c) && CallLifeCycle.Enabled(w, i)
    ensures var v := CallLifeCycle.Apply(w, i);
            && CallLifeCycle.Inv(v) && c in v.calls && (c in v.shown ==> c in w.shown)
            && (c in v.shown ==>
                  && StageOf(v.shown[c]).Some? && StageOf(w.shown[c]).Some?
                  && Forward(l, StateBecomes(v.shown[c])) && StaysEnded(l, StateBecomes(v.shown[c])))
  {
    var v := CallLifeCycle.Apply(w, i);
    CallLifeCycle.StepKeepsInv(w, i);
    CallLifeCycle.StepSettles(w, i, c);
    assert CallLifeCycle.CallOk(w, c) && CallLifeCycle.CallOk(v, c);
    if c in v.shown {
      if c !in w.shown {
        CallLifeCycle.NewlyShown(w, i, c);
      }
      CallLifeCycle.ShownState(w, c);
      CallLifeCycle.ShownState(v, c);
      ForwardByPhase(w.calls[c].state, v.calls[c].state, l);
    }
  }

  lemma SeenKeepsLink(w: CallLifeCycle.World, l: Life, e: Event, c: CallLifeCycle.CallId)
    requires Linked(w, l, c) && EventEnabled(w, e) && SavesStarted(l, Seen(w, e, c))
    ensures |Seen(w, e, c)| <= 1
    ensures Seen(w, e, c) == [] ==> Linked(Advanced(w, e), l, c)
    ensures Seen(w, e, c) != [] ==>
              var i := Seen(w, e, c)[0];
              Enabled(l, i) && Forward(l, i) && StaysEnded(l, i) && Linked(Advanced(w, e), Apply(l, i), c)
  {
    if e.LifeCycle? {
      ShownGoesForward(w, e.step, c, l);
    }
    if Seen(w, e, c) != [] {
      StepKeepsInv(l, Seen(w, e, c)[0]);
    }
  }

  /** Every run of the whole life cycle, with any saves and any time in between, is to the record of a
      dummy call a possible run that goes forward and never comes back from disconnected. */
  lemma {:induction false} ProjectedRunGoesForward(w: CallLifeCycle.World, l: Life, events: seq<Event>,
                                                   c: CallLifeCycle.CallId)
    requires Linked(w, l, c) && EventsPossible(w, events) && SavesStarted(l, Projected(w, events, c))
    ensures var inputs := Projected(w, events, c);
            Possible(l, inputs) && AllForward(l, inputs) && AllStayEnded(l, inputs)
    decreases |events|
  {
    if events != [] {
      var seen, next, rest := Seen(w, events[0], c), Advanced(w, events[0]), events[1..];
      var later := Projected(next, rest, c);
      if seen == [] {
        assert seen + later == later;
        SeenKeepsLink(w, l, events[0], c);
        ProjectedRunGoesForward(next, l, rest, c);
      } else {
        assert (seen + later)[0] == seen[0] && |seen| == 1 && (seen + later)[1..] == later;
        SeenKeepsLink(w, l, events[0], c);
        ProjectedRunGoesForward(next, Apply(l, seen[0]), rest, c);
      }
    }
  }

  /** From the moment a dummy call is added: its record has start <= answered <= end on every run of the
      whole life cycle, and as long as no save fails its stamps tell the stage the call is shown in. */
  lemma DummyCallStamps(w: CallLifeCycle.World, o: CallLifeCycle.OriginId, inbound: bool, clock: nat, repository: bool,
                        events: seq<Event>)
    requires CallLifeCycle.Inv(w) && CallLifeCycle.Enabled(w, CallLifeCycle.AddCall(o, inbound))
    requires EventsPossible(CallLifeCycle.Apply(w, CallLifeCycle.AddCall(o, inbound)), events)
    requires SavesStarted(AddedLife(w, o, inbound, clock, repository),
                          Projected(CallLifeCycle.Apply(w, CallLifeCycle.AddCall(o, inbound)), events, w.next))
    ensures var l := AddedLife(w, o, inbound, clock, repository);
            var inputs := Projected(CallLifeCycle.Apply(w, CallLifeCycle.AddCall(o, inbound)), events, w.next);
            && Possible(l, inputs) && Inv(Run(l, inputs)) && StampsOrdered(Run(l, inputs)) && TellsStage(Run(l, inputs))
            && (Run(l, inputs).records != [] <==> repository)
  {
    var l := AddedLife(w, o, inbound, clock, repository);
    var v := CallLifeCycle.Apply(w, CallLifeCycle.AddCall(o, inbound));
    var unseen := Fresh(clock, v.shown[w.next]);
    CallLifeCycle.StepKeepsInv(w, CallLifeCycle.AddCall(o, inbound));
    FreshIsSound(clock, v.shown[w.next]);
    StepKeepsInv(unseen, CallAdded(repository));
    StepKeepsOrder(unseen, CallAdded(repository));
    StepTellsStage(unseen, CallAdded(repository));
    var inputs := Projected(v, events, w.next);
    ProjectedRunGoesForward(v, l, events, w.next);
    RecordedOnce(l, inputs);
    StampsInOrder(l, inputs);
    StampsTellStage(l, inputs);
    RecordedIffRepository(clock, v.shown[w.next], repository, inputs);
  }

  /** A call as the store first sees it. */
  function AddedLife(w: CallLifeCycle.World, o: CallLifeCycle.OriginId, inbound: bool, clock: nat,
                     repository: bool): (l: Life)
    requires CallLifeCycle.Enabled(w, CallLifeCycle.AddCall(o, inbound))
    ensures Indexed(l)
  {
    Apply(Fresh(clock, CallLifeCycle.Apply(w, CallLifeCycle.AddCall(o, inbound)).shown[w.next]), CallAdded(repository))
  }

  /** If the first save fails, the change of state that prompts the retry is not stamped: an answered
      call can end up listed as never answered. */
  lemma RetryLosesAnswer(clock: nat, rang: nat, talked: nat)
    ensures var failed := Apply(Apply(Fresh(clock, CuiIncoming), CallAdded(true)), SaveDone(0, false));
            var answered := Apply(Apply(failed, Tick(rang)), StateBecomes(CuiActive));
            var saved := Apply(Apply(answered, SaveDone(1, true)), Tick(talked));
            var over := Apply(saved, StateBecomes(CuiDisconnected));
            && answered.saving == {1} && over.listed == [1]
            && over.records[1] == Record(clock, None, Some(clock + rang + talked))
  {
    var failed := Apply(Apply(Fresh(clock, CuiIncoming), CallAdded(true)), SaveDone(0, false));
    assert |failed.records| == 1 && failed.saving == {} && failed.current == None && failed.start == Some(clock);
    var answered := Apply(Apply(failed, Tick(rang)), StateBecomes(CuiActive));
    assert answered.saving == {1} && answered.records[1] == Record(clock, None, None);
    var saved := Apply(Apply(answered, SaveDone(1, true)), Tick(talked));
    assert saved.listed == [1] && saved.records == answered.records && saved.current == Some(1);
  }

  /** A call added while there is no repository is never recorded: no handler follows it, so the retry
      that would record it later is never reached. */
  lemma {:induction false} UnrecordedForGood(l: Life, inputs: seq<Input>)
    requires Inv(l) && Possible(l, inputs)
    requires l.added && !l.connected && l.records == [] && l.saving == {}
    ensures var m := Run(l, inputs); m.records == [] && m.listed == [] && !m.connected && m.start == l.start
    decreases |inputs|
  {
    if inputs != [] {
      StepKeepsInv(l, inputs[0]);
      UnrecordedForGood(Apply(l, inputs[0]), inputs[1..]);
    }
  }

  /** A call is recorded exactly if there is a repository when it is added, whatever happens later. */
  lemma RecordedIffRepository(clock: nat, ui: CuiState, repository: bool, inputs: seq<Input>)
    requires Possible(Apply(Fresh(clock, ui), CallAdded(repository)), inputs)
    ensures Run(Apply(Fresh(clock, ui), CallAdded(repository)), inputs).records != [] <==> repository
  {
    FreshIsSound(clock, ui);
    var l := Apply(Fresh(clock, ui), CallAdded(repository));
    StepKeepsInv(Fresh(clock, ui), CallAdded(repository));
    if repository {
      RecordedOnce(l, inputs);
    } else {
      UnrecordedForGood(l, inputs);
    }
  }

  lemma FreshIsSound(clock: nat, ui: CuiState)
    ensures Inv(Fresh(clock, ui)) && Ordered(Fresh(clock, ui)) && TellsStage(Fresh(clock, ui))
  {
  }

  // ----- The objects -----

  class CallsRecordStore {
    var adapter: bool
    var repository: bool
    var busy: int
    ghost var outstanding: seq<Operation>
    ghost var openings: nat
    ghost var done: seq<bool>
    ghost var loads: nat
    ghost var clashes: nat

    ghost function View(): Store
      reads this
    {
      Store(adapter, repository, busy, outstanding, openings, done, loads, clashes)
    }

    ghost predicate Valid()
      reads this
    {
      StoreInv(View())
    }

    constructor ()
      ensures View() == NEW_STORE && Valid()
    {
      adapter, repository, busy := false, false, 0;
      outstanding, openings, done, loads, clashes := [], 0, [], 0, 0;
      new;
      NewStoreIsSound();
    }

    method DoOpenRepo()
      requires Valid()
      modifies this
      ensures View() == StoreStep(old(View()), OpenRepo) && Valid()
    {
      StoreStepKeepsInv(View(), OpenRepo);
      if adapter {
        return;
      }
      adapter := true;
      busy := busy + 1;
      outstanding := outstanding + [Open];
      openings := openings + 1;
    }

    method SetUpRepo()
      modifies this
      ensures View() == SetUp(old(View()))
    {
      if repository {
        clashes := clashes + 1;
        return;
      }
      busy := busy + 1;
      outstanding := outstanding + [Migrate];
      repository := true;
    }

    method OpenCallback(ok: bool)
      requires Valid() && Open in outstanding
      modifies this
      ensures View() == StoreStep(old(View()), OpenDone(ok)) && Valid()
    {
      StoreStepKeepsInv(View(), OpenDone(ok));
      outstanding := Less(outstanding, Open);
      if !ok {
        adapter := false;
        done := done + [false];
      } else {
        SetUpRepo();
      }
      busy := busy - 1;
    }

    method LoadCalls()
      modifies this`busy, this`outstanding
      ensures busy == old(busy) + 1 && outstanding == old(outstanding) + [Find]
    {
      busy := busy + 1;
      outstanding := outstanding + [Find];
    }

    method MigrateCallback(ok: bool)
      requires Valid() && Migrate in outstanding
      modifies this
      ensures View() == StoreStep(old(View()), MigrateDone(ok)) && Valid()
    {
      StoreStepKeepsInv(View(), MigrateDone(ok));
      outstanding := Less(outstanding, Migrate);
      if !ok {
        repository := false;
        adapter := false;
      } else {
        LoadCalls();
      }
      done := done + [ok];
      busy := busy - 1;
    }

    method FindCallback(result: FindResult)
      requires Valid() && Find in outstanding
      modifies this
      ensures View() == StoreStep(old(View()), FindDone(result)) && Valid()
    {
      StoreStepKeepsInv(View(), FindDone(result));
      outstanding := Less(outstanding, Find);
      if result == FoundSome {
        busy := busy + 1;
        outstanding := outstanding + [Fetch];
      }
      busy := busy - 1;
    }

    method FetchCallback(ok: bool)
      requires Valid() && Fetch in outstanding
      modifies this
      ensures View() == StoreStep(old(View()), FetchDone(ok)) && Valid()
    {
      StoreStepKeepsInv(View(), FetchDone(ok));
      outstanding := Less(outstanding, Fetch);
      if ok {
        loads := loads + 1;
      }
      busy := busy - 1;
    }
  }

  /** A call with the data the store attaches to it. */
  class RecordedCall {
    var ui: CuiState
    var connected: bool
    var start: Option<nat>
    var records: seq<Record>
    var current: Option<nat>
    var listed: seq<nat>
    ghost var saving: set<nat>
    ghost var clock: nat
    ghost var added: bool
    ghost var addedAt: nat
    ghost var removed: bool
    ghost var failures: nat

    ghost function View(): Life
      reads this
    {
      Life(clock, ui, added, connected, start, records, current, saving, listed, addedAt, removed, failures, false)
    }

    ghost predicate Valid()
      reads this
    {
      Inv(View())
    }

    constructor (ui: CuiState, now: nat)
      ensures View() == Fresh(now, ui) && Valid()
    {
      this.ui, connected, start, records, current, listed := ui, false, None, [], None, [];
      saving, clock, added, addedAt, removed, failures := {}, now, false, 0, false, 0;
    }

    /** `record_call`. */
    method RecordCall()
      requires current.None? && start.Some?
      modifies this`records, this`current, this`saving
      ensures View() == NewRecord(old(View()))
    {
      records := records + [Record(start.value, None, None)];
      current := Some(|records| - 1);
      saving := saving + {|records| - 1};
    }

    /** `stamp_call` with "answered". */
    method StampAsAnswered(now: nat)
      requires Indexed(View()) && current.Some? && now == clock
      modifies this`records
      ensures View() == StampAnswered(old(View()))
    {
      var r := records[current.value];
      if r.answered.Some? {
        return;
      }
      records := records[current.value := r.(answered := Some(now))];
    }

    /** `stamp_call` with "end". */
    method StampAsEnded(now: nat)
      requires Indexed(View()) && current.Some? && now == clock
      modifies this`records
      ensures View() == StampEnd(old(View()))
    {
      var r := records[current.value];
      if r.end.Some? {
        return;
      }
      records := records[current.value := r.(end := Some(now))];
    }

    method OnCallAdded(store: CallsRecordStore, now: nat)
      requires Valid() && store.Valid() && !added && now == clock
      modifies this, store
      ensures View() == Apply(old(View()), CallAdded(old(store.repository))) && Valid()
      ensures store.View() == if old(store.repository) then old(store.View())
                              else StoreStep(old(store.View()), OpenRepo)
      ensures store.Valid()
    {
      StepKeepsInv(View(), CallAdded(store.repository));
      added := true;
      addedAt := now;
      start := Some(now);
      if !store.repository {
        store.DoOpenRepo();
        return;
      }
      RecordCall();
      connected := true;
    }

    /** The user interface data announces its new state; the store listens while it is connected. */
    method SetState(state: CuiState, now: nat)
      requires Valid() && now == clock
      requires connected && current.Some? && state != ui ==> StageOf(state).Some? && StageOf(ui).Some?
      modifies this`ui, this`records, this`current, this`saving
      ensures View() == Apply(old(View()), StateBecomes(state)) && Valid()
    {
      StepKeepsInv(View(), StateBecomes(state));
      if ui == state {
        return;
      }
      var oldState := ui;
      ui := state;
      if connected {
        OnStateChanged(state, oldState, now);
      }
    }

    method OnStateChanged(newState: CuiState, oldState: CuiState, now: nat)
      requires Indexed(View()) && now == clock
      requires current.Some? ==> StageOf(newState).Some? && StageOf(oldState).Some?
      modifies this`records, this`current, this`saving
      ensures View() == StateChanged(old(View()), newState, oldState)
    {
      if current.None? {
        if start.Some? {
          RecordCall();
        }
        return;
      }
      var newStage, oldStage := StageOf(newState).value, StageOf(oldState).value;
      if newStage == oldStage {
        return;
      }
      if oldStage == Started {
        if newStage == Answered {
          StampAsAnswered(now);
        } else {
          StampAsEnded(now);
        }
      } else if oldStage == Answered && newStage == Ended {
        StampAsEnded(now);
      }
    }

    method SaveCallback(record: nat, ok: bool)
      requires Valid() && record in saving
      modifies this
      ensures View() == Apply(old(View()), SaveDone(record, ok)) && Valid()
    {
      StepKeepsInv(View(), SaveDone(record, ok));
      saving := saving - {record};
      if !ok {
        current := None;
        failures := failures + 1;
      } else {
        listed := [record] + listed;
        start := None;
      }
    }

    method OnCallRemoved(now: nat)
      requires Valid() && now == clock && added && !removed
      modifies this
      ensures View() == Apply(old(View()), CallRemoved) && Valid()
    {
      StepKeepsInv(View(), CallRemoved);
      if current.Some? {
        StampAsEnded(now);
      }
      connected := false;
      removed := true;
    }
  }
}
