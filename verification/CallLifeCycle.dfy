/** The life of a call across the call itself, the dummy origin that lists it, the manager that shows it
    and the user interface data that follows it. Calls and origins are addressed by handles; the pending
    timers of the main loop are part of the state. */
module CallLifeCycle {
  import opened CallStates

  type CallId = nat
  type OriginId = nat

  /** `hangUps` counts the hang-up requests the call has received. */
  datatype Call = Call(origin: OriginId, inbound: bool, state: CallState, hungUp: bool, hangUps: nat)

  datatype World = World(
    attached: seq<OriginId>,
    live: map<OriginId, seq<CallId>>,
    calls: map<CallId, Call>,
    shown: map<CallId, CuiState>,
    pending: multiset<CallId>,
    ticks: multiset<CallId>,
    added: multiset<CallId>,
    removed: multiset<CallId>,
    missing: nat,
    next: CallId)

  const EMPTY_WORLD := World([], map[], map[], map[], multiset{}, multiset{}, multiset{}, multiset{}, 0, 0)

  // ----- Lists of calls -----

  /** `g_list_remove`: drops the first occurrence. */
  function RemoveFirst(s: seq<CallId>, c: CallId): seq<CallId>
  {
    if s == [] then [] else if s[0] == c then s[1..] else [s[0]] + RemoveFirst(s[1..], c)
  }

  function Without(s: seq<nat>, gone: set<nat>): (r: seq<nat>)
    ensures forall c :: c in r <==> c in s && c !in gone
  {
    if s == [] then []
    else if s[0] in gone then Without(s[1..], gone)
    else [s[0]] + Without(s[1..], gone)
  }

  lemma {:induction false} NothingToDrop(s: seq<nat>, gone: set<nat>)
    requires forall c :: c in s ==> c !in gone
    ensures Without(s, gone) == s
  {
    if s != [] {
      assert s[0] in s && forall c :: c in s[1..] ==> c in s;
      NothingToDrop(s[1..], gone);
    }
  }

  lemma {:induction false} DropAll(s: seq<nat>, gone: set<nat>)
    requires forall c :: c in s ==> c in gone
    ensures Without(s, gone) == []
  {
    if s != [] {
      assert s[0] in s && forall c :: c in s[1..] ==> c in s;
      DropAll(s[1..], gone);
    }
  }

  lemma {:induction false} RemoveFirstDropsOne(s: seq<CallId>, c: CallId)
    requires NoDuplicates(s)
    ensures RemoveFirst(s, c) == Without(s, {c})
  {
    if s != [] {
      assert forall i, j :: 0 <= i < j < |s[1..]| ==> s[1..][i] == s[i + 1] && s[1..][j] == s[j + 1];
      if s[0] == c {
        assert forall d :: d in s[1..] ==> d != c;
        NothingToDrop(s[1..], {c});
      } else {
        RemoveFirstDropsOne(s[1..], c);
      }
    }
  }

  lemma {:induction false} DropTwice(s: seq<nat>, a: set<nat>, b: set<nat>)
    ensures Without(Without(s, a), b) == Without(s, a + b)
  {
    if s != [] {
      DropTwice(s[1..], a, b);
      if s[0] !in a {
        assert Without(s, a)[1..] == Without(s[1..], a);
      }
    }
  }

  lemma {:induction false} DroppingKeepsDistinct(s: seq<nat>, gone: set<nat>)
    requires NoDuplicates(s)
    ensures NoDuplicates(Without(s, gone))
  {
    if s != [] {
      assert forall i, j :: 0 <= i < j < |s[1..]| ==> s[1..][i] == s[i + 1] && s[1..][j] == s[j + 1];
      DroppingKeepsDistinct(s[1..], gone);
      var rest := Without(s[1..], gone);
      assert forall k :: 0 <= k < |rest| ==> rest[k] in s[1..];
    }
  }

  // ----- One step -----

  /** The origin's `remove_call`, then the manager's, which starts the delayed removal. */
  function RemoveCall(w: World, o: OriginId, c: CallId): World
  {
    w.(live := if o in w.live then w.live[o := RemoveFirst(w.live[o], c)] else w.live,
       pending := w.pending + multiset{c})
  }

  function SetState(w: World, c: CallId, s: CallState): World
    requires c in w.calls
  {
    if w.calls[c].state == s then w
    else
      var changed := w.(calls := w.calls[c := w.calls[c].(state := s)]);
      var left := if s.Disconnected? then RemoveCall(changed, w.calls[c].origin, c) else changed;
      if c in left.shown then left.(shown := left.shown[c := ToCui(s)]) else left
  }

  function HangUpCall(w: World, c: CallId): World
    requires c in w.calls
  {
    var call := w.calls[c];
    SetState(w.(calls := w.calls[c := call.(hungUp := true, hangUps := call.hangUps + 1)]), c, Disconnected)
  }

  /** The constructor of a dummy call; an outbound one starts its timeout. */
  function Created(w: World, o: OriginId, inbound: bool): World
  {
    var c := w.next;
    w.(calls := w.calls[c := Call(o, inbound, if inbound then Incoming else Dialing, false, 0)],
       ticks := if inbound then w.ticks else w.ticks + multiset{c},
       next := c + 1)
  }

  /** The manager's `add_call`. */
  function Entered(w: World, c: CallId): World
    requires c in w.calls
  {
    w.(shown := w.shown[c := ToCui(w.calls[c].state)], added := w.added + multiset{c})
  }

  /** The origin's `add_call`. */
  function Added(w: World, o: OriginId, inbound: bool): World
    requires o in w.live
  {
    var created := Created(w, o, inbound);
    Entered(created.(live := w.live[o := w.live[o] + [w.next]]), w.next)
  }

  function Answered(w: World, c: CallId): World
    requires c in w.calls
  {
    if w.calls[c].state.Incoming? then SetState(w, c, Active) else w
  }

  function Ticked(w: World, c: CallId): World
    requires c in w.calls
  {
    var spent := w.(ticks := w.ticks - multiset{c});
    match w.calls[c].state
    case Dialing =>
      var ringing := SetState(spent, c, Alerting);
      ringing.(ticks := ringing.ticks + multiset{c})
    case Alerting => SetState(spent, c, Active)
    case _ => spent
  }

  function Expired(w: World, c: CallId): World
  {
    var fired := w.(pending := w.pending - multiset{c});
    if c in w.shown then fired.(shown := w.shown - {c}, removed := w.removed + multiset{c})
    else fired.(missing := w.missing + 1)
  }

  // ----- Many calls hung up at once -----

  function Hung(call: Call): Call
  {
    call.(state := Disconnected, hungUp := true, hangUps := call.hangUps + 1)
  }

  function Connected(w: World, s: set<CallId>): set<CallId>
  {
    set c | c in s && c in w.calls && !w.calls[c].state.Disconnected?
  }

  /** What hanging up a set of calls amounts to, in whatever order it is done. */
  function HungUp(w: World, s: set<CallId>): World
  {
    w.(calls := map c | c in w.calls :: if c in s then Hung(w.calls[c]) else w.calls[c],
       live := map o | o in w.live :: Without(w.live[o], s),
       shown := map c | c in w.shown :: if c in s then CuiDisconnected else w.shown[c],
       pending := w.pending + multiset(Connected(w, s)))
  }

  function AllConnected(w: World): set<CallId>
  {
    set c | c in w.calls && !w.calls[c].state.Disconnected?
  }

  /** The shown calls whose origin is no longer attached. */
  function Orphans(w: World): set<CallId>
  {
    set c | c in w.shown && c in w.calls && w.calls[c].origin !in w.attached
  }

  /** `on_providers_changed` after providers went away. */
  function Detached(w: World, gone: set<OriginId>): World
  {
    var left := w.(attached := Without(w.attached, gone));
    HungUp(left, Orphans(left))
  }

  /** An origin's `dispose`: every call it still lists is announced as removed. */
  function Disposed(w: World, o: OriginId): World
    requires o in w.live
  {
    w.(live := w.live - {o}, pending := w.pending + multiset(w.live[o]))
  }

  function Unloaded(w: World, gone: set<OriginId>): World
  {
    var left := Detached(w, gone);
    left.(live := left.live - gone)
  }

  // ----- Runs -----

  datatype Input =
    | AddOrigin(origin: OriginId)
    | AddCall(origin: OriginId, inbound: bool)
    | Answer(call: CallId)
    | HangUp(call: CallId)
    | OutboundTimeout(call: CallId)
    | RemoveDelayed(call: CallId)
    | HangUpAll
    | Unload(origins: set<OriginId>)

  /** Handles are never reused; calls are added by attached origins; timers fire when pending. */
  predicate Enabled(w: World, i: Input)
  {
    match i
    case AddOrigin(o) => o !in w.live && o !in w.attached && forall c :: c in w.calls ==> w.calls[c].origin != o
    case AddCall(o, _) => o in w.live && o in w.attached
    case Answer(c) => c in w.calls
    case HangUp(c) => c in w.calls
    case OutboundTimeout(c) => c in w.ticks && c in w.calls
    case RemoveDelayed(c) => c in w.pending
    case HangUpAll => true
    case Unload(gone) => forall o :: o in gone ==> o in w.attached
  }

  function Apply(w: World, i: Input): World
    requires Enabled(w, i)
  {
    match i
    case AddOrigin(o) => w.(attached := w.attached + [o], live := w.live[o := []])
    case AddCall(o, inbound) => Added(w, o, inbound)
    case Answer(c) => Answered(w, c)
    case HangUp(c) => HangUpCall(w, c)
    case OutboundTimeout(c) => Ticked(w, c)
    case RemoveDelayed(c) => Expired(w, c)
    case HangUpAll => HungUp(w, AllConnected(w))
    case Unload(gone) => Unloaded(w, gone)
  }

  predicate Possible(w: World, inputs: seq<Input>)
    decreases |inputs|
  {
    inputs == [] || (Enabled(w, inputs[0]) && Possible(Apply(w, inputs[0]), inputs[1..]))
  }

  function Run(w: World, inputs: seq<Input>): World
    requires Possible(w, inputs)
    decreases |inputs|
  {
    if inputs == [] then w else Run(Apply(w, inputs[0]), inputs[1..])
  }

  // ----- The invariant -----

  /** An outbound call that is not yet answered has exactly one timeout to move it on; nothing else but
      a disconnected call may have one left over. */
  ghost predicate TicksOk(call: Call, ticks: nat)
  {
    if call.inbound then ticks == 0 && (call.state.Incoming? || call.state.Active? || call.state.Disconnected?)
    else match call.state
      case Dialing => ticks == 1
      case Alerting => ticks == 1
      case Active => ticks == 0
      case Disconnected => ticks <= 1
      case _ => false
  }

  /** A call is listed by its origin until it disconnects. The manager shows it as long as it is
      connected or its one delayed removal is pending, in its own state, and announces one addition for
      it and one removal once it is no longer shown. */
  ghost predicate CallOk(w: World, c: CallId)
  {
    if c in w.calls then
      var call := w.calls[c];
      && c < w.next && w.added[c] == 1 && TicksOk(call, w.ticks[c])
      && (call.hungUp <==> call.state.Disconnected?)
      && (c in w.shown ==> w.shown[c] == ToCui(call.state))
      && (if call.state.Disconnected? then
            w.pending[c] == (if c in w.shown then 1 else 0) && w.removed[c] == (if c in w.shown then 0 else 1)
          else
            c in w.shown && w.pending[c] == 0 && w.removed[c] == 0
            && call.origin in w.live && c in w.live[call.origin])
    else
      c !in w.shown && w.pending[c] == 0 && w.added[c] == 0 && w.removed[c] == 0 && w.ticks[c] == 0
  }

  /** An origin lists calls of its own that are connected, each once. */
  ghost predicate OriginOk(w: World, o: OriginId)
  {
    o in w.live ==>
      && NoDuplicates(w.live[o])
      && forall c :: c in w.live[o] ==> c in w.calls && w.calls[c].origin == o && !w.calls[c].state.Disconnected?
  }

  ghost predicate Core(w: World)
  {
    w.missing == 0 && (forall c :: CallOk(w, c)) && forall o :: OriginOk(w, o)
  }

  /** The attached origins are exactly those that have not been disposed. */
  ghost predicate AttachedInv(w: World)
  {
    NoDuplicates(w.attached) && forall o :: o in w.attached <==> o in w.live
  }

  ghost predicate Inv(w: World)
  {
    Core(w) && AttachedInv(w)
  }

  // ----- Hanging up -----

  lemma HangUpLists(w: World, c: CallId, o: OriginId)
    requires Core(w) && c in w.calls && o in w.live
    ensures HangUpCall(w, c).live[o] == Without(w.live[o], {c})
  {
    assert OriginOk(w, o);
    if !w.calls[c].state.Disconnected? && o == w.calls[c].origin {
      RemoveFirstDropsOne(w.live[o], c);
    } else {
      NothingToDrop(w.live[o], {c});
    }
  }

  lemma HangUpCalls(w: World, c: CallId)
    requires Core(w) && c in w.calls
    ensures HangUpCall(w, c).calls == HungUp(w, {c}).calls
  {
    var one, all := HangUpCall(w, c).calls, HungUp(w, {c}).calls;
    assert one.Keys == all.Keys;
    assert one[c] == all[c];
  }

  lemma HangUpShown(w: World, c: CallId)
    requires CallOk(w, c) && c in w.calls
    ensures HangUpCall(w, c).shown == HungUp(w, {c}).shown
    ensures HangUpCall(w, c).pending == HungUp(w, {c}).pending
  {
    assert Connected(w, {c}) == if w.calls[c].state.Disconnected? then {} else {c};
    var one, all := HangUpCall(w, c).shown, HungUp(w, {c}).shown;
    assert one.Keys == all.Keys;
  }

  /** Hanging up one call is the closed form for one call, whatever its state. */
  lemma HangUpIsHungUp(w: World, c: CallId)
    requires Core(w) && c in w.calls
    ensures HangUpCall(w, c) == HungUp(w, {c})
  {
    assert CallOk(w, c);
    HangUpCalls(w, c);
    HangUpShown(w, c);
    assert HangUpCall(w, c).live == HungUp(w, {c}).live by {
      forall o | o in w.live ensures HangUpCall(w, c).live[o] == Without(w.live[o], {c}) {
        HangUpLists(w, c, o);
      }
    }
  }

  lemma HangUpMoreLists(w: World, s: set<CallId>, t: set<CallId>)
    ensures HungUp(HungUp(w, s), t).live == HungUp(w, s + t).live
  {
    forall o | o in w.live ensures Without(Without(w.live[o], s), t) == Without(w.live[o], s + t) {
      DropTwice(w.live[o], s, t);
    }
  }

  lemma HangUpMorePending(w: World, s: set<CallId>, t: set<CallId>)
    requires s !! t
    ensures HungUp(HungUp(w, s), t).pending == HungUp(w, s + t).pending
  {
    var a, b := Connected(w, s), Connected(HungUp(w, s), t);
    assert Connected(w, s + t) == a + b && a !! b;
    assert multiset(a + b) == multiset(a) + multiset(b);
  }

  lemma HangUpMore(w: World, s: set<CallId>, t: set<CallId>)
    requires s !! t
    ensures HungUp(HungUp(w, s), t) == HungUp(w, s + t)
  {
    HangUpMoreLists(w, s, t);
    HangUpMorePending(w, s, t);
    var step, both := HungUp(HungUp(w, s), t), HungUp(w, s + t);
    assert step.calls == both.calls;
    assert step.shown == both.shown;
  }

  lemma HangUpNobody(w: World)
    ensures HungUp(w, {}) == w
  {
    var same := HungUp(w, {});
    assert same.calls == w.calls && same.shown == w.shown;
    forall o | o in w.live ensures Without(w.live[o], {}) == w.live[o] {
      NothingToDrop(w.live[o], {});
    }
    assert same.live == w.live;
    assert Connected(w, {}) == {};
  }

  lemma HungUpPending(w: World, s: set<CallId>, c: CallId)
    ensures HungUp(w, s).pending[c] == w.pending[c] + if c in Connected(w, s) then 1 else 0
  {
  }

  lemma HungUpKeepsCall(w: World, s: set<CallId>, c: CallId)
    requires CallOk(w, c)
    ensures CallOk(HungUp(w, s), c)
  {
    HungUpPending(w, s, c);
  }

  lemma HungUpKeepsOrigin(w: World, s: set<CallId>, o: OriginId)
    requires OriginOk(w, o)
    ensures OriginOk(HungUp(w, s), o)
  {
    if o in w.live {
      DroppingKeepsDistinct(w.live[o], s);
    }
  }

  lemma HungUpKeepsCore(w: World, s: set<CallId>)
    requires Core(w)
    ensures Core(HungUp(w, s))
  {
    forall c ensures CallOk(HungUp(w, s), c) {
      assert CallOk(w, c);
      HungUpKeepsCall(w, s, c);
    }
    forall o ensures OriginOk(HungUp(w, s), o) {
      assert OriginOk(w, o);
      HungUpKeepsOrigin(w, s, o);
    }
  }

  lemma HungUpKeepsInv(w: World, s: set<CallId>)
    requires Inv(w)
    ensures Inv(HungUp(w, s))
  {
    HungUpKeepsCore(w, s);
  }

  // ----- Every step keeps the invariant -----

  lemma AnswerKeepsCore(w: World, c: CallId)
    requires Core(w) && c in w.calls
    ensures Core(Answered(w, c))
  {
    var v := Answered(w, c);
    assert CallOk(w, c);
    forall d ensures CallOk(v, d) {
      assert CallOk(w, d);
    }
    forall o ensures OriginOk(v, o) {
      assert OriginOk(w, o);
    }
  }

  lemma AddKeepsCore(w: World, o: OriginId, inbound: bool)
    requires Core(w) && o in w.live
    ensures Core(Added(w, o, inbound))
  {
    var v := Added(w, o, inbound);
    assert CallOk(w, w.next);
    forall d ensures CallOk(v, d) {
      assert CallOk(w, d);
    }
    forall p ensures OriginOk(v, p) {
      assert OriginOk(w, p);
    }
  }

  lemma TickKeepsCore(w: World, c: CallId)
    requires Core(w) && c in w.calls && c in w.ticks
    ensures Core(Ticked(w, c))
  {
    var v := Ticked(w, c);
    assert CallOk(w, c);
    assert v.ticks == if w.calls[c].state.Dialing? then w.ticks else w.ticks - multiset{c};
    forall d ensures CallOk(v, d) {
      assert CallOk(w, d);
    }
    forall o ensures OriginOk(v, o) {
      assert OriginOk(w, o);
    }
  }

  lemma ExpiryKeepsCore(w: World, c: CallId)
    requires Core(w) && c in w.pending
    ensures Core(Expired(w, c))
  {
    var v := Expired(w, c);
    assert CallOk(w, c);
    forall d ensures CallOk(v, d) {
      assert CallOk(w, d);
    }
    forall o ensures OriginOk(v, o) {
      assert OriginOk(w, o);
    }
  }

  lemma OriginKeepsInv(w: World, o: OriginId)
    requires Inv(w) && Enabled(w, AddOrigin(o))
    ensures Inv(Apply(w, AddOrigin(o)))
  {
    var v := Apply(w, AddOrigin(o));
    forall d ensures CallOk(v, d) {
      assert CallOk(w, d);
    }
    forall p ensures OriginOk(v, p) {
      assert OriginOk(w, p);
    }
  }

  lemma AttachedKeepsCore(w: World, attached: seq<OriginId>)
    requires Core(w)
    ensures Core(w.(attached := attached))
  {
    var v := w.(attached := attached);
    forall d ensures CallOk(v, d) {
      assert CallOk(w, d);
    }
    forall o ensures OriginOk(v, o) {
      assert OriginOk(w, o);
    }
  }

  /** After the providers' change every orphan has been hung up, so nothing is left in the lists of the
      origins that went: disposing of them announces nothing. */
  lemma NothingLeftToDispose(w: World, gone: set<OriginId>)
    requires Inv(w) && Enabled(w, Unload(gone))
    ensures Core(Detached(w, gone))
    ensures forall o :: o in gone ==> o in Detached(w, gone).live && Detached(w, gone).live[o] == []
  {
    var left := w.(attached := Without(w.attached, gone));
    AttachedKeepsCore(w, left.attached);
    HungUpKeepsCore(left, Orphans(left));
    forall o | o in gone ensures o in w.live && Without(w.live[o], Orphans(left)) == [] {
      forall c | c in w.live[o] ensures c in Orphans(left) {
        assert OriginOk(w, o) && CallOk(w, c);
      }
      DropAll(w.live[o], Orphans(left));
    }
  }

  lemma EmptyListsCanGo(w: World, gone: set<OriginId>)
    requires Core(w) && forall o :: o in gone ==> o in w.live && w.live[o] == []
    ensures Core(w.(live := w.live - gone))
  {
    var v := w.(live := w.live - gone);
    forall d ensures CallOk(v, d) {
      assert CallOk(w, d);
    }
    forall o ensures OriginOk(v, o) {
      assert OriginOk(w, o);
    }
  }

  lemma UnloadKeepsInv(w: World, gone: set<OriginId>)
    requires Inv(w) && Enabled(w, Unload(gone))
    ensures Inv(Unloaded(w, gone))
  {
    NothingLeftToDispose(w, gone);
    EmptyListsCanGo(Detached(w, gone), gone);
    DroppingKeepsDistinct(w.attached, gone);
  }

  /** Only origins come and go with the list of attached ones. */
  lemma SameOriginsKeepInv(w: World, v: World)
    requires Inv(w) && Core(v) && v.attached == w.attached && v.live.Keys == w.live.Keys
    ensures Inv(v)
  {
  }

  lemma AddKeepsInv(w: World, o: OriginId, inbound: bool)
    requires Inv(w) && o in w.live
    ensures Inv(Added(w, o, inbound))
  {
    AddKeepsCore(w, o, inbound);
    SameOriginsKeepInv(w, Added(w, o, inbound));
  }

  lemma AnswerKeepsInv(w: World, c: CallId)
    requires Inv(w) && c in w.calls
    ensures Inv(Answered(w, c))
  {
    AnswerKeepsCore(w, c);
    SameOriginsKeepInv(w, Answered(w, c));
  }

  lemma TickKeepsInv(w: World, c: CallId)
    requires Inv(w) && c in w.calls && c in w.ticks
    ensures Inv(Ticked(w, c))
  {
    TickKeepsCore(w, c);
    SameOriginsKeepInv(w, Ticked(w, c));
  }

  lemma ExpiryKeepsInv(w: World, c: CallId)
    requires Inv(w) && c in w.pending
    ensures Inv(Expired(w, c))
  {
    ExpiryKeepsCore(w, c);
    SameOriginsKeepInv(w, Expired(w, c));
  }

  lemma StepKeepsInv(w: World, i: Input)
    requires Inv(w) && Enabled(w, i)
    ensures Inv(Apply(w, i))
  {
    match i
    case AddOrigin(o) => OriginKeepsInv(w, o);
    case AddCall(o, inbound) => AddKeepsInv(w, o, inbound);
    case Answer(c) => AnswerKeepsInv(w, c);
    case HangUp(c) =>
      HangUpIsHungUp(w, c);
      HungUpKeepsInv(w, {c});
    case OutboundTimeout(c) => TickKeepsInv(w, c);
    case RemoveDelayed(c) => ExpiryKeepsInv(w, c);
    case HangUpAll => HungUpKeepsInv(w, AllConnected(w));
    case Unload(gone) => UnloadKeepsInv(w, gone);
  }

  // ----- What the steps of one call mean -----

  /** A new origin comes last and has no calls yet. */
  lemma OriginMeans(w: World, o: OriginId)
    requires Inv(w) && Enabled(w, AddOrigin(o))
    ensures o !in w.attached && o !in w.live
    ensures Apply(w, AddOrigin(o)) == w.(attached := w.attached + [o], live := w.live[o := []])
  {
  }

  /** A new call is unknown before; it is listed last by its origin, comes in or is dialed by its direction, is
      shown so, announced for the first time, and has a timeout of its own exactly if it goes out. Nothing else
      changes. */
  lemma AddedMeans(w: World, o: OriginId, inbound: bool)
    requires Inv(w) && o in w.live
    ensures var c := w.next;
            && c !in w.calls && c !in w.shown && w.added[c] == w.removed[c] == w.pending[c] == w.ticks[c] == 0
            && Added(w, o, inbound) == w.(
                 calls := w.calls[c := Call(o, inbound, if inbound then Incoming else Dialing, false, 0)],
                 live := w.live[o := w.live[o] + [c]],
                 shown := w.shown[c := if inbound then CuiIncoming else CuiCalling],
                 ticks := w.ticks + (if inbound then multiset{} else multiset{c}),
                 added := w.added + multiset{c},
                 next := c + 1)
  {
    assert CallOk(w, w.next);
    assert w.ticks + multiset{} == w.ticks;
  }

  /** Answering an incoming call makes it active, and shown as active; it stays in its list and no removal is
      started. Nothing else changes, and answering any other call changes nothing at all. */
  lemma AnsweredMeans(w: World, c: CallId)
    requires Inv(w) && c in w.calls
    ensures var v := Apply(w, Answer(c));
            if w.calls[c].state == Incoming then
              && v == w.(calls := w.calls[c := w.calls[c].(state := Active)], shown := w.shown[c := CuiActive])
              && c in w.shown && v.pending[c] == 0 && w.calls[c].origin in v.live && c in v.live[w.calls[c].origin]
            else
              v == w
  {
    assert CallOk(w, c);
  }

  /** The timeout of an outbound call makes a dialed call alert, and starts again; it makes an alerting call
      active; and it only runs out when the call has come further. */
  lemma TimeoutMeans(w: World, c: CallId)
    requires Inv(w) && Enabled(w, OutboundTimeout(c))
    ensures var v, call := Apply(w, OutboundTimeout(c)), w.calls[c];
            match call.state
            case Dialing =>
              && c in w.shown
              && v == w.(calls := w.calls[c := call.(state := Alerting)], shown := w.shown[c := CuiCalling])
            case Alerting =>
              && c in w.shown
              && v == w.(calls := w.calls[c := call.(state := Active)], shown := w.shown[c := CuiActive],
                         ticks := w.ticks - multiset{c})
            case _ => v == w.(ticks := w.ticks - multiset{c})
  {
    assert CallOk(w, c);
  }

  /** Hanging up a connected call disconnects it, takes it out of its origin's list, shows it as disconnected and
      starts its one delayed removal; one that is disconnected only counts the request. */
  lemma HangUpMeans(w: World, c: CallId)
    requires Inv(w) && c in w.calls
    ensures var v, call := Apply(w, HangUp(c)), w.calls[c];
            var hung := Call(call.origin, call.inbound, Disconnected, true, call.hangUps + 1);
            if call.state == Disconnected then
              v == w.(calls := w.calls[c := hung])
            else
              && c in w.shown && w.pending[c] == 0 && call.origin in w.live
              && v == w.(calls := w.calls[c := hung], shown := w.shown[c := CuiDisconnected],
                         live := w.live[call.origin := v.live[call.origin]], pending := w.pending + multiset{c})
              && TakenOut(w.live[call.origin], c, v.live[call.origin])
  {
    assert CallOk(w, c);
    if !w.calls[c].state.Disconnected? {
      RemoveFirstTakesOut(w.live[w.calls[c].origin], c);
    }
  }

  /** One occurrence, the first, has gone. */
  ghost predicate TakenOut(s: seq<CallId>, c: CallId, left: seq<CallId>)
  {
    exists k :: FirstAt(s, c, k) && left == s[..k] + s[k + 1..]
  }

  ghost predicate FirstAt(s: seq<CallId>, c: CallId, k: int)
  {
    0 <= k < |s| && s[k] == c && forall j :: 0 <= j < k ==> s[j] != c
  }

  lemma {:induction false} FirstOf(s: seq<CallId>, c: CallId) returns (k: nat)
    requires c in s
    ensures FirstAt(s, c, k)
  {
    if s[0] == c {
      k := 0;
    } else {
      k := FirstOf(s[1..], c);
      k := k + 1;
    }
  }

  lemma {:induction false} RemoveFirstAt(s: seq<CallId>, c: CallId, k: nat)
    requires FirstAt(s, c, k)
    ensures RemoveFirst(s, c) == s[..k] + s[k + 1..]
  {
    if k == 0 {
      assert s[..0] + s[1..] == s[1..];
    } else {
      var tail := s[1..];
      assert FirstAt(tail, c, k - 1) by {
        assert forall j :: 0 <= j < k ==> tail[j] == s[j + 1];
      }
      RemoveFirstAt(tail, c, k - 1);
      assert s[0] != c;
      calc {
        RemoveFirst(s, c);
        [s[0]] + (tail[..k - 1] + tail[k..]);
        ([s[0]] + tail[..k - 1]) + tail[k..];
        { assert [s[0]] + tail[..k - 1] == s[..k] && tail[k..] == s[k + 1..]; }
        s[..k] + s[k + 1..];
      }
    }
  }

  lemma RemoveFirstTakesOut(s: seq<CallId>, c: CallId)
    requires c in s
    ensures TakenOut(s, c, RemoveFirst(s, c))
  {
    var k := FirstOf(s, c);
    RemoveFirstAt(s, c, k);
  }

  /** The delayed removal concerns a disconnected call that is still shown; it is announced and no longer
      shown afterwards, and nothing else changes. */
  lemma RemovalMeans(w: World, c: CallId)
    requires Inv(w) && Enabled(w, RemoveDelayed(c))
    ensures c in w.calls && w.calls[c].state == Disconnected && c in w.shown
    ensures Apply(w, RemoveDelayed(c)) ==
            w.(shown := w.shown - {c}, removed := w.removed + multiset{c}, pending := w.pending - multiset{c})
  {
    assert CallOk(w, c);
  }

  /** An origin that is disposed of while it lists calls starts one delayed removal for each. */
  lemma DisposedMeans(w: World, o: OriginId, c: CallId)
    requires Core(w) && o in w.live
    ensures o !in Disposed(w, o).live
    ensures Disposed(w, o).pending[c] == w.pending[c] + if c in w.live[o] then 1 else 0
    ensures c in w.live[o] ==> Disposed(w, o).pending[c] == 1
  {
    assert OriginOk(w, o) && CallOk(w, c);
    OnceEach(w.live[o], c);
  }

  lemma {:induction false} OnceEach(s: seq<CallId>, c: CallId)
    requires NoDuplicates(s)
    ensures multiset(s)[c] == if c in s then 1 else 0
  {
    if s != [] {
      assert forall i, j :: 0 <= i < j < |s[1..]| ==> s[1..][i] == s[i + 1] && s[1..][j] == s[j + 1];
      OnceEach(s[1..], c);
      assert s == [s[0]] + s[1..];
    }
  }

  /** Left alone, an outbound call alerts at its first timeout and is active at its second, its last. */
  lemma OutboundCallConnects(w: World, o: OriginId)
    requires Inv(w) && o in w.live
    ensures var v, c := Added(w, o, false), w.next;
            c in v.calls && c in Ticked(v, c).calls &&
            var alerting, active := Ticked(v, c), Ticked(Ticked(v, c), c);
            && alerting.calls[c].state.Alerting? && alerting.ticks[c] == 1
            && c in active.calls && active.calls[c].state.Active? && active.ticks[c] == 0
            && c in active.shown && active.shown[c].CuiActive?
            && active.live == v.live
  {
    AddedMeans(w, o, false);
    var v, c := Added(w, o, false), w.next;
    var alerting := Ticked(v, c);
    assert c in alerting.shown && alerting.calls[c].state.Alerting?;
  }

  // ----- Whole runs -----

  lemma EmptyIsSound()
    ensures Inv(EMPTY_WORLD)
  {
  }

  lemma {:induction false} RunKeepsInv(w: World, inputs: seq<Input>)
    requires Inv(w) && Possible(w, inputs)
    ensures Inv(Run(w, inputs))
    decreases |inputs|
  {
    if inputs != [] {
      StepKeepsInv(w, inputs[0]);
      RunKeepsInv(Apply(w, inputs[0]), inputs[1..]);
    }
  }

  /** On every run from the start: what the manager shows is the disjoint union of the calls live in some
      origin and the calls whose removal is pending, with one pending removal each; every call was added
      exactly once and removed at most once, namely exactly when it is no longer shown; the removal that
      finds no call never happens. */
  lemma ExactlyOnce(inputs: seq<Input>)
    requires Possible(EMPTY_WORLD, inputs)
    ensures var w := Run(EMPTY_WORLD, inputs);
            var live := set o, c | o in w.live && c in w.live[o] :: c;
            var leaving := set c | c in w.pending;
            && w.shown.Keys == live + leaving && live !! leaving
            && (forall c :: c in leaving ==> w.pending[c] == 1)
            && (forall c :: w.added[c] == if c in w.calls then 1 else 0)
            && (forall c :: w.removed[c] == if c in w.calls && c !in w.shown then 1 else 0)
            && w.missing == 0
  {
    EmptyIsSound();
    RunKeepsInv(EMPTY_WORLD, inputs);
    var w := Run(EMPTY_WORLD, inputs);
    var live := set o, c | o in w.live && c in w.live[o] :: c;
    forall c
      ensures c in live <==> c in w.calls && !w.calls[c].state.Disconnected?
      ensures c in w.shown <==> c in live || c in w.pending
      ensures !(c in live && c in w.pending) && w.pending[c] <= 1
      ensures w.added[c] == if c in w.calls then 1 else 0
      ensures w.removed[c] == if c in w.calls && c !in w.shown then 1 else 0
    {
      LiveIff(w, c);
      assert CallOk(w, c);
    }
  }

  lemma LiveIff(w: World, c: CallId)
    requires Core(w)
    ensures (exists o :: o in w.live && c in w.live[o]) <==> c in w.calls && !w.calls[c].state.Disconnected?
  {
    assert CallOk(w, c);
    if o :| o in w.live && c in w.live[o] {
      assert OriginOk(w, o);
    }
  }

  /** How far a call has come: set up, answered, ended. */
  function Phase(s: CallState): nat
  {
    match s
    case Disconnected => 2
    case Active => 1
    case Held => 1
    case _ => 0
  }

  /** What one step never undoes: a call never goes back; it keeps its origin and direction; once
      disconnected it stays so and gets no second removal. */
  ghost predicate Settled(w: World, v: World, c: CallId)
    requires c in w.calls
  {
    && c in v.calls
    && v.calls[c].origin == w.calls[c].origin && v.calls[c].inbound == w.calls[c].inbound
    && w.calls[c].hangUps <= v.calls[c].hangUps
    && Phase(w.calls[c].state) <= Phase(v.calls[c].state)
    && (w.calls[c].state.Disconnected? ==> v.calls[c].state.Disconnected? && v.pending[c] <= w.pending[c])
  }

  lemma HungUpSettles(w: World, s: set<CallId>, c: CallId)
    requires CallOk(w, c) && c in w.calls
    ensures Settled(w, HungUp(w, s), c)
  {
    HungUpPending(w, s, c);
  }

  lemma MoveSettles(w: World, d: CallId, s: CallState, c: CallId)
    requires c in w.calls && d in w.calls && !w.calls[d].state.Disconnected? && !s.Disconnected?
    requires Phase(w.calls[d].state) <= Phase(s)
    ensures Settled(w, SetState(w, d, s), c)
  {
  }

  lemma TickSettles(w: World, d: CallId, c: CallId)
    requires c in w.calls && d in w.calls
    ensures Settled(w, Ticked(w, d), c)
  {
    var spent := w.(ticks := w.ticks - multiset{d});
    if w.calls[d].state.Dialing? {
      MoveSettles(spent, d, Alerting, c);
    } else if w.calls[d].state.Alerting? {
      MoveSettles(spent, d, Active, c);
    }
  }

  lemma AddSettles(w: World, o: OriginId, inbound: bool, c: CallId)
    requires CallOk(w, w.next) && o in w.live && c in w.calls
    ensures Settled(w, Added(w, o, inbound), c)
  {
  }

  lemma StepSettles(w: World, i: Input, c: CallId)
    requires Inv(w) && Enabled(w, i) && c in w.calls
    ensures Settled(w, Apply(w, i), c)
  {
    assert CallOk(w, c) && CallOk(w, w.next);
    match i
    case HangUp(d) =>
      HangUpIsHungUp(w, d);
      HungUpSettles(w, {d}, c);
    case HangUpAll => HungUpSettles(w, AllConnected(w), c);
    case Unload(gone) =>
      var left := w.(attached := Without(w.attached, gone));
      HungUpSettles(left, Orphans(left), c);
    case AddCall(o, inbound) => AddSettles(w, o, inbound, c);
    case Answer(d) => if w.calls[d].state.Incoming? { MoveSettles(w, d, Active, c); }
    case OutboundTimeout(d) => TickSettles(w, d, c);
    case _ =>
  }

  /** Only a new call is newly shown, as it is dialed or as it comes in. */
  lemma NewlyShown(w: World, i: Input, c: CallId)
    requires Inv(w) && Enabled(w, i) && c !in w.shown && c in Apply(w, i).shown
    ensures i.AddCall? && c == w.next && (Apply(w, i).shown[c].CuiCalling? || Apply(w, i).shown[c].CuiIncoming?)
  {
    assert CallOk(w, c);
    match i
    case AddCall(o, inbound) => AddedMeans(w, o, inbound);
    case HangUp(d) => HangUpIsHungUp(w, d);
    case _ =>
  }

  lemma ShownState(w: World, c: CallId)
    requires CallOk(w, c) && c in w.shown
    ensures c in w.calls && w.shown[c] == ToCui(w.calls[c].state)
    ensures !w.calls[c].state.Unknown? && !w.calls[c].state.Held?
  {
  }

  lemma {:induction false} DisconnectedForGood(w: World, inputs: seq<Input>, c: CallId)
    requires Inv(w) && Possible(w, inputs) && c in w.calls
    ensures Settled(w, Run(w, inputs), c)
    decreases |inputs|
  {
    if inputs != [] {
      StepSettles(w, inputs[0], c);
      StepKeepsInv(w, inputs[0]);
      DisconnectedForGood(Apply(w, inputs[0]), inputs[1..], c);
    }
  }

  /** Hanging up all calls hangs up every connected call exactly once, touches no other call, and leaves
      every origin empty. */
  lemma HangUpAllMeans(w: World)
    requires Inv(w)
    ensures var v := Apply(w, HangUpAll);
            && v.calls.Keys == w.calls.Keys
            && (forall c :: c in w.calls ==>
                  var call := w.calls[c];
                  v.calls[c] == if call.state.Disconnected? then call
                                else Call(call.origin, call.inbound, Disconnected, true, call.hangUps + 1))
            && v.live.Keys == w.live.Keys && (forall o :: o in v.live ==> v.live[o] == [])
            && v.pending == w.pending + multiset(AllConnected(w))
            && v.shown.Keys == w.shown.Keys && (forall c :: c in v.shown ==> v.shown[c].CuiDisconnected?)
  {
    var v := Apply(w, HangUpAll);
    assert Connected(w, AllConnected(w)) == AllConnected(w);
    forall o | o in w.live ensures v.live[o] == [] {
      assert OriginOk(w, o);
      DropAll(w.live[o], AllConnected(w));
    }
    forall c | c in w.shown ensures v.shown[c].CuiDisconnected? {
      assert CallOk(w, c);
    }
  }

  /** Unloading origins hangs up their connected calls, leaves the calls of the other origins alone, and
      leaves nothing for the disposal of the origins to announce. */
  lemma UnloadMeans(w: World, gone: set<OriginId>)
    requires Inv(w) && Enabled(w, Unload(gone))
    ensures var v := Apply(w, Unload(gone));
            && (forall c :: c in w.calls && w.calls[c].origin in gone ==>
                  v.calls[c].state.Disconnected? && (c in w.shown ==> v.calls[c].hangUps == w.calls[c].hangUps + 1))
            && (forall c :: c in w.calls && w.calls[c].origin in v.attached ==>
                  v.calls[c] == w.calls[c] && v.pending[c] == w.pending[c])
            && (forall o :: o in v.attached ==> v.live[o] == w.live[o])
            && (forall o :: o in v.attached <==> o in w.attached && o !in gone)
            && (forall o :: o in gone ==> Disposed(Detached(w, gone), o).pending == v.pending)
  {
    NothingLeftToDispose(w, gone);
    var left := w.(attached := Without(w.attached, gone));
    var v := Apply(w, Unload(gone));
    forall c | c in w.calls
      ensures w.calls[c].origin in gone ==>
                v.calls[c].state.Disconnected? && (c in w.shown ==> v.calls[c].hangUps == w.calls[c].hangUps + 1)
      ensures w.calls[c].origin in v.attached ==> v.calls[c] == w.calls[c] && v.pending[c] == w.pending[c]
    {
      assert CallOk(w, c);
      HungUpPending(left, Orphans(left), c);
    }
    forall o | o in v.attached ensures v.live[o] == w.live[o] {
      assert OriginOk(w, o);
      NothingToDrop(w.live[o], Orphans(left));
    }
  }

  // ----- The loops, in their own order -----

  function Names(s: seq<CallId>): set<CallId>
  {
    set c | c in s
  }

  lemma HangUpKeepsKeys(w: World, c: CallId)
    requires c in w.calls
    ensures HangUpCall(w, c).calls.Keys == w.calls.Keys
    ensures HangUpCall(w, c).live.Keys == w.live.Keys
  {
  }

  /** Hangs up the calls of a list from first to last. */
  function HangUpEach(w: World, s: seq<CallId>): World
    requires forall c :: c in s ==> c in w.calls
    decreases |s|
  {
    if s == [] then w
    else
      HangUpKeepsKeys(w, s[0]);
      HangUpEach(HangUpCall(w, s[0]), s[1..])
  }

  lemma HangUpNext(before: World, done: set<CallId>, c: CallId)
    requires Core(before) && c in before.calls && c !in done
    ensures HangUpCall(HungUp(before, done), c) == HungUp(before, done + {c})
  {
    HungUpKeepsCore(before, done);
    HangUpIsHungUp(HungUp(before, done), c);
    HangUpMore(before, done, {c});
  }

  lemma {:induction false} HangUpEachIsHungUp(before: World, done: set<CallId>, s: seq<CallId>, all: set<CallId>)
    requires Core(before) && NoDuplicates(s) && all == done + Names(s)
    requires forall c :: c in s ==> c in before.calls && c !in done
    ensures forall c :: c in s ==> c in HungUp(before, done).calls
    ensures HangUpEach(HungUp(before, done), s) == HungUp(before, all)
    decreases |s|
  {
    if s == [] {
      assert all == done;
    } else {
      forall d | d in s[1..] ensures d in before.calls && d !in done && d != s[0] {
        assert d in s;
      }
      assert forall d :: d in s <==> d == s[0] || d in s[1..];
      HangUpNext(before, done, s[0]);
      HangUpEachIsHungUp(before, done + {s[0]}, s[1..], all);
    }
  }

  lemma HangUpListIsHungUp(w: World, o: OriginId)
    requires Core(w) && o in w.live
    ensures forall c :: c in w.live[o] ==> c in w.calls
    ensures HangUpEach(w, w.live[o]) == HungUp(w, Names(w.live[o]))
  {
    assert OriginOk(w, o);
    HangUpNobody(w);
    HangUpEachIsHungUp(w, {}, w.live[o], Names(w.live[o]));
  }

  lemma HangUpListKeepsCore(w: World, o: OriginId)
    requires Core(w) && o in w.live
    ensures forall c :: c in w.live[o] ==> c in w.calls
    ensures Core(HangUpEach(w, w.live[o])) && HangUpEach(w, w.live[o]).live.Keys == w.live.Keys
  {
    HangUpListIsHungUp(w, o);
    HungUpKeepsCore(w, Names(w.live[o]));
  }

  /** Hangs up the calls of one origin after the other; each list is read when its turn comes. */
  function HangUpOrigins(w: World, origins: seq<OriginId>): World
    requires Core(w) && forall o :: o in origins ==> o in w.live
    decreases |origins|
  {
    if origins == [] then w
    else
      HangUpListKeepsCore(w, origins[0]);
      HangUpOrigins(HangUpEach(w, w.live[origins[0]]), origins[1..])
  }

  /** The calls listed by some of the origins. */
  function Reached(w: World, origins: seq<OriginId>): set<CallId>
    requires forall o :: o in origins ==> o in w.live
  {
    if origins == [] then {} else Names(w.live[origins[0]]) + Reached(w, origins[1..])
  }

  lemma {:induction false} ReachedIff(w: World, origins: seq<OriginId>, c: CallId)
    requires forall o :: o in origins ==> o in w.live
    ensures c in Reached(w, origins) <==> exists k :: 0 <= k < |origins| && c in w.live[origins[k]]
  {
    if origins != [] {
      ReachedIff(w, origins[1..], c);
      assert forall k :: 0 < k < |origins| ==> origins[k] == origins[1..][k - 1];
      if c in w.live[origins[0]] {
        assert 0 <= 0 < |origins| && c in w.live[origins[0]];
      } else if k :| 0 <= k < |origins[1..]| && c in w.live[origins[1..][k]] {
        assert c in w.live[origins[k + 1]];
      }
    }
  }

  lemma ListsApart(w: World, o: OriginId, p: OriginId)
    requires Core(w) && o in w.live && p in w.live && o != p
    ensures Names(w.live[o]) !! Names(w.live[p])
  {
    assert OriginOk(w, o) && OriginOk(w, p);
  }

  lemma NextOrigin(before: World, done: set<CallId>, o: OriginId)
    requires Core(before) && o in before.live && Names(before.live[o]) !! done
    ensures var w := HungUp(before, done);
            && Core(w) && w.live[o] == before.live[o]
            && (forall c :: c in w.live[o] ==> c in w.calls)
            && HangUpEach(w, w.live[o]) == HungUp(before, done + Names(before.live[o]))
  {
    HungUpKeepsCore(before, done);
    forall c | c in before.live[o] ensures c !in done {
      assert c in Names(before.live[o]);
    }
    NothingToDrop(before.live[o], done);
    HangUpListIsHungUp(HungUp(before, done), o);
    HangUpMore(before, done, Names(before.live[o]));
  }

  lemma {:induction false} HangUpOriginsIsHungUp(before: World, done: set<CallId>, origins: seq<OriginId>,
                                                 all: set<CallId>)
    requires Core(before) && Core(HungUp(before, done)) && NoDuplicates(origins)
    requires forall o :: o in origins ==> o in before.live && Names(before.live[o]) !! done
    requires all == done + Reached(before, origins)
    ensures HangUpOrigins(HungUp(before, done), origins) == HungUp(before, all)
    decreases |origins|
  {
    if origins == [] {
      assert all == done;
    } else {
      var o := origins[0];
      var now := done + Names(before.live[o]);
      NextOrigin(before, done, o);
      HungUpKeepsCore(before, now);
      forall p | p in origins[1..] ensures p in before.live && Names(before.live[p]) !! now {
        assert p in origins && p != o;
        ListsApart(before, o, p);
      }
      HangUpOriginsIsHungUp(before, now, origins[1..], all);
    }
  }

  /** Going through the attached origins one by one, each through the list it has when its turn comes,
      hangs up exactly the connected calls. */
  lemma HangUpOriginsIsAll(w: World)
    requires Inv(w)
    ensures HangUpOrigins(w, w.attached) == HungUp(w, AllConnected(w))
  {
    HangUpNobody(w);
    forall c ensures c in Reached(w, w.attached) <==> c in AllConnected(w) {
      ReachedIff(w, w.attached, c);
      LiveIff(w, c);
      AttachedCovers(w, c);
    }
    assert Reached(w, w.attached) == AllConnected(w);
    HangUpOriginsIsHungUp(w, {}, w.attached, AllConnected(w));
  }

  lemma AttachedCovers(w: World, c: CallId)
    requires Inv(w)
    ensures (exists o :: o in w.live && c in w.live[o])
        <==> exists k :: 0 <= k < |w.attached| && c in w.live[w.attached[k]]
  {
    if o :| o in w.live && c in w.live[o] {
      assert o in w.attached;
      var k :| 0 <= k < |w.attached| && w.attached[k] == o;
      assert c in w.live[w.attached[k]];
    }
  }

  /** Hangs up, in the order given, the calls whose origin is no longer attached. */
  function Sweep(w: World, order: seq<CallId>): World
    requires forall c :: c in order ==> c in w.calls
    decreases |order|
  {
    if order == [] then w
    else
      HangUpKeepsKeys(w, order[0]);
      Sweep(if w.calls[order[0]].origin in w.attached then w else HangUpCall(w, order[0]), order[1..])
  }

  function OrphansIn(w: World, order: seq<CallId>): set<CallId>
  {
    set c | c in order && c in w.calls && w.calls[c].origin !in w.attached
  }

  lemma SameOrigins(w: World, s: set<CallId>, c: CallId)
    requires c in w.calls
    ensures var v := HungUp(w, s);
            v.attached == w.attached && v.calls.Keys == w.calls.Keys && v.calls[c].origin == w.calls[c].origin
  {
  }

  lemma OneOrphanMore(w: World, order: seq<CallId>)
    requires order != []
    ensures OrphansIn(w, order)
         == OrphansIn(w, order[1..])
            + if order[0] in w.calls && w.calls[order[0]].origin !in w.attached then {order[0]} else {}
  {
    assert forall d :: d in order <==> d == order[0] || d in order[1..];
  }

  lemma {:induction false} SweepIsHungUpFrom(before: World, done: set<CallId>, order: seq<CallId>, all: set<CallId>)
    requires Core(before) && NoDuplicates(order) && all == done + OrphansIn(before, order)
    requires forall c :: c in order ==> c in before.calls && c !in done
    ensures forall c :: c in order ==> c in HungUp(before, done).calls
    ensures Sweep(HungUp(before, done), order) == HungUp(before, all)
    decreases |order|
  {
    if order == [] {
      assert all == done;
    } else {
      var c, rest := order[0], order[1..];
      SameOrigins(before, done, c);
      forall d | d in rest ensures d in before.calls && d !in done && d != c {
        assert d in order;
      }
      OneOrphanMore(before, order);
      if before.calls[c].origin in before.attached {
        SweepIsHungUpFrom(before, done, rest, all);
      } else {
        HangUpNext(before, done, c);
        SweepIsHungUpFrom(before, done + {c}, rest, all);
      }
    }
  }

  /** Whatever order the table yields its calls in, the sweep hangs up exactly the orphans. */
  lemma SweepIsHungUp(w: World, order: seq<CallId>)
    requires Core(w) && NoDuplicates(order) && forall c :: c in order <==> c in w.shown
    ensures forall c :: c in order ==> c in w.calls
    ensures Sweep(w, order) == HungUp(w, Orphans(w))
  {
    forall c | c in order ensures c in w.calls {
      assert CallOk(w, c);
    }
    HangUpNobody(w);
    SweepIsHungUpFrom(w, {}, order, Orphans(w));
  }

  // ----- The objects -----

  /** The tables behind the call, origin, manager and user interface objects. */
  class CallsManager {
    var attached: seq<OriginId>
    var live: map<OriginId, seq<CallId>>
    var calls: map<CallId, Call>
    var shown: map<CallId, CuiState>
    var next: CallId
    ghost var pending: multiset<CallId>
    ghost var ticks: multiset<CallId>
    ghost var added: multiset<CallId>
    ghost var removed: multiset<CallId>
    ghost var missing: nat

    ghost function View(): World
      reads this
    {
      World(attached, live, calls, shown, pending, ticks, added, removed, missing, next)
    }

    ghost predicate Valid()
      reads this
    {
      Inv(View())
    }

    constructor ()
      ensures View() == EMPTY_WORLD && Valid()
    {
      attached, live, calls, shown, next := [], map[], map[], map[], 0;
      pending, ticks, added, removed, missing := multiset{}, multiset{}, multiset{}, multiset{}, 0;
      new;
      EmptyIsSound();
    }

    method AddOrigin(o: OriginId)
      requires Valid() && Enabled(View(), Input.AddOrigin(o))
      modifies this
      ensures View() == Apply(old(View()), Input.AddOrigin(o)) && Valid()
    {
      StepKeepsInv(View(), Input.AddOrigin(o));
      attached := attached + [o];
      live := live[o := []];
    }

    method ShowCall(c: CallId)
      requires c in calls
      modifies this`shown, this`added
      ensures View() == Entered(old(View()), c)
    {
      shown := shown[c := ToCui(calls[c].state)];
      added := added + multiset{c};
    }

    method NewCall(o: OriginId, inbound: bool) returns (c: CallId)
      modifies this`next, this`calls, this`ticks
      ensures c == old(next) && View() == Created(old(View()), o, inbound)
    {
      c := next;
      next := next + 1;
      calls := calls[c := Call(o, inbound, if inbound then Incoming else Dialing, false, 0)];
      if !inbound {
        ticks := ticks + multiset{c};
      }
    }

    method AddCall(o: OriginId, inbound: bool) returns (c: CallId)
      requires Valid() && Enabled(View(), Input.AddCall(o, inbound))
      modifies this
      ensures View() == Apply(old(View()), Input.AddCall(o, inbound)) && Valid()
      ensures c == old(next)
    {
      ghost var before := View();
      c := NewCall(o, inbound);
      live := live[o := live[o] + [c]];
      ShowCall(c);
      StepKeepsInv(before, Input.AddCall(o, inbound));
    }

    method RemoveFromOrigin(o: OriginId, c: CallId)
      modifies this`live, this`pending
      ensures View() == RemoveCall(old(View()), o, c)
    {
      if o in live {
        live := live[o := RemoveFirst(live[o], c)];
      }
      pending := pending + multiset{c};
    }

    /** `calls_call_set_state`: the handlers run one after the other, the origin's first. */
    method SetCallState(c: CallId, s: CallState)
      requires c in calls
      modifies this`calls, this`live, this`pending, this`shown
      ensures View() == SetState(old(View()), c, s)
    {
      if calls[c].state == s {
        return;
      }
      calls := calls[c := calls[c].(state := s)];
      if s == Disconnected {
        RemoveFromOrigin(calls[c].origin, c);
      }
      if c in shown {
        shown := shown[c := ToCui(s)];
      }
    }

    method CallHangUp(c: CallId)
      requires c in calls
      modifies this`calls, this`live, this`pending, this`shown
      ensures View() == HangUpCall(old(View()), c)
    {
      ghost var before := View();
      calls := calls[c := calls[c].(hungUp := true, hangUps := calls[c].hangUps + 1)];
      assert View() == before.(calls := calls);
      SetCallState(c, Disconnected);
    }

    method HangUp(c: CallId)
      requires Valid() && c in calls
      modifies this
      ensures View() == Apply(old(View()), Input.HangUp(c)) && Valid()
    {
      StepKeepsInv(View(), Input.HangUp(c));
      CallHangUp(c);
    }

    method Answer(c: CallId)
      requires Valid() && c in calls
      modifies this
      ensures View() == Apply(old(View()), Input.Answer(c)) && Valid()
    {
      StepKeepsInv(View(), Input.Answer(c));
      if calls[c].state != Incoming {
        return;
      }
      SetCallState(c, Active);
    }

    method OutboundTimeout(c: CallId)
      requires Valid() && Enabled(View(), Input.OutboundTimeout(c))
      modifies this
      ensures View() == Apply(old(View()), Input.OutboundTimeout(c)) && Valid()
    {
      StepKeepsInv(View(), Input.OutboundTimeout(c));
      ticks := ticks - multiset{c};
      if calls[c].state == Dialing {
        SetCallState(c, Alerting);
        ticks := ticks + multiset{c};
      } else if calls[c].state == Alerting {
        SetCallState(c, Active);
      }
    }

    method AnnounceRemoval(c: CallId)
      modifies this`shown, this`removed
      ensures shown == old(shown) - {c} && removed == old(removed) + multiset{c}
    {
      removed := removed + multiset{c};
      shown := shown - {c};
    }

    /** The branch that finds no call stays in; `StepKeepsInv` shows that a valid state never takes it. */
    method OnRemoveDelayed(c: CallId)
      requires c in pending
      modifies this`shown, this`pending, this`removed, this`missing
      ensures View() == Apply(old(View()), RemoveDelayed(c))
    {
      pending := pending - multiset{c};
      if c !in shown {
        missing := missing + 1;
      } else {
        AnnounceRemoval(c);
      }
    }

    /** The loop over a copy of one origin's list; the list itself shrinks under it. */
    method HangUpOrigin(o: OriginId)
      requires o in live && forall c :: c in live[o] ==> c in calls
      modifies this`calls, this`live, this`pending, this`shown
      ensures View() == HangUpEach(old(View()), old(live[o]))
    {
      var copy := live[o];
      ghost var before := View();
      for i := 0 to |copy|
        invariant forall c :: c in copy ==> c in calls
        invariant HangUpEach(View(), copy[i..]) == HangUpEach(before, copy)
      {
        assert copy[i..][0] == copy[i] && copy[i..][1..] == copy[i + 1..];
        HangUpKeepsKeys(View(), copy[i]);
        CallHangUp(copy[i]);
      }
    }

    method HangUpAllCalls()
      requires Valid()
      modifies this
      ensures View() == Apply(old(View()), HangUpAll) && Valid()
    {
      ghost var before := View();
      StepKeepsInv(before, HangUpAll);
      HangUpOriginsIsAll(before);
      var origins := attached;
      for i := 0 to |origins|
        invariant Core(View()) && forall o :: o in origins ==> o in live
        invariant HangUpOrigins(View(), origins[i..]) == HangUpOrigins(before, origins)
      {
        assert origins[i..][0] == origins[i] && origins[i..][1..] == origins[i + 1..];
        HangUpListKeepsCore(View(), origins[i]);
        HangUpOrigin(origins[i]);
      }
    }

    /** `on_providers_changed` with providers removed: the origins leave the flat list, then the table is
        walked in the order the hash yields, hanging up every call whose origin has gone. */
    method OnProvidersChanged(gone: set<OriginId>, order: seq<CallId>)
      requires Valid()
      requires NoDuplicates(order) && forall c :: c in order <==> c in shown
      modifies this`attached, this`calls, this`live, this`pending, this`shown
      ensures View() == Detached(old(View()), gone)
    {
      AttachedKeepsCore(View(), Without(attached, gone));
      attached := Without(attached, gone);
      ghost var before := View();
      SweepIsHungUp(before, order);
      for i := 0 to |order|
        invariant forall c :: c in order ==> c in calls
        invariant Sweep(View(), order[i..]) == Sweep(before, order)
      {
        assert order[i..][0] == order[i] && order[i..][1..] == order[i + 1..];
        if calls[order[i]].origin !in attached {
          HangUpKeepsKeys(View(), order[i]);
          CallHangUp(order[i]);
        }
      }
    }

    /** An origin's `dispose` empties its list, announcing every call as removed. */
    method DisposeOrigin(o: OriginId)
      requires o in live
      modifies this`live, this`pending
      ensures View() == Disposed(old(View()), o)
    {
      ghost var before := View();
      while live[o] != []
        invariant o in live && live == before.live[o := live[o]]
        invariant pending + multiset(live[o]) == before.pending + multiset(before.live[o])
        decreases |live[o]|
      {
        var c := live[o][0];
        assert live[o] == [c] + live[o][1..];
        live := live[o := live[o][1..]];
        pending := pending + multiset{c};
      }
      live := live - {o};
    }

    /** Unloading the plugin of some origins: the providers' change, then the disposal of each origin. */
    method UnloadOrigins(gone: set<OriginId>, order: seq<CallId>)
      requires Valid() && Enabled(View(), Unload(gone))
      requires NoDuplicates(order) && forall c :: c in order <==> c in shown
      modifies this
      ensures View() == Apply(old(View()), Unload(gone)) && Valid()
    {
      StepKeepsInv(View(), Unload(gone));
      NothingLeftToDispose(View(), gone);
      OnProvidersChanged(gone, order);
      DisposeOrigins(gone);
    }

    method DisposeOrigins(gone: set<OriginId>)
      requires forall o :: o in gone ==> o in live && live[o] == []
      modifies this`live, this`pending
      ensures View() == old(View()).(live := old(live) - gone)
    {
      ghost var all := live;
      var left := gone;
      while left != {}
        invariant left <= gone && live == all - (gone - left) && pending == old(pending)
        decreases left
      {
        var o :| o in left;
        DisposeOrigin(o);
        left := left - {o};
      }
    }
  }
}
