/** A SIP call ties the negotiated keys to the media pipeline under one of three encryption modes. */
module SipCall {
  import opened CallStates
  import opened SdpCrypto
  import MediaPipeline

  datatype Encryption = NoEncryption | PreferredEncryption | ForcedEncryption

  /** A SIP response and the crypto lines it carried. */
  datatype Response = Response(status: nat, crypto: seq<Attr>)

  datatype Call = Call(
    context: Context,
    pipe: MediaPipeline.Pipe,
    mode: Encryption,
    state: CallState,
    codecs: seq<MediaPipeline.Codec>,
    sent: seq<Response>)

  /** How GStreamer reacts when a codec is set. */
  datatype Setup = Setup(available: bool, setupOk: bool, linkOk: bool)

  datatype Input =
    | Offer(keys: Suite -> string)
    | RemoteMedia(media: seq<MediaAttribute>)
    | Codecs(codecs: seq<MediaPipeline.Codec>)
    | Answer(keys: Suite -> string)
    | Activate(enabled: bool, setup: Setup)
    | PipelineMoves(input: MediaPipeline.Input)
    | StateBecomes(state: CallState)

  function Respond(c: Call, status: nat, crypto: seq<Attr>): Call
  {
    c.(sent := c.sent + [Response(status, crypto)])
  }

  function Answered(c: Call, keys: Suite -> string): Call
  {
    if !c.state.Incoming? then c
    else if c.context.state.OfferRemote? then
      if c.mode.NoEncryption? then c
      else
        var (context, ok) := MakeAnswer(c.context, keys);
        if !ok then Respond(c.(context := context), 488, [])
        else Respond(c.(context := context), 200, context.local).(state := Active)
    else if c.mode.ForcedEncryption? then c
    else Respond(c, 200, []).(state := Active)
  }

  function Keyed(c: Call): Call
  {
    if c.context.state.NegotiationSuccess? then
      c.(pipe := MediaPipeline.Apply(c.pipe, MediaPipeline.SetCrypto(LocalCrypto(c.context), RemoteCrypto(c.context))))
    else c
  }

  function SetUp(c: Call, setup: Setup): Call
    requires c.codecs != []
  {
    var ready :=
      if c.pipe.state.NeedCodec? then
        MediaPipeline.Apply(c.pipe, MediaPipeline.SetCodec(c.codecs[0], setup.available, setup.setupOk, setup.linkOk))
      else c.pipe;
    c.(pipe := MediaPipeline.Apply(ready, MediaPipeline.Start))
  }

  function Activated(c: Call, setup: Setup): Call
    requires c.codecs != []
  {
    if !c.context.state.NegotiationSuccess? && c.mode.ForcedEncryption? then c else SetUp(Keyed(c), setup)
  }

  /** The codec list is set before media is activated; the pipeline's codec and keys are only ever
      set by the call itself. The origin reports remote media and makes offers by its mode. */
  predicate Enabled(c: Call, i: Input)
  {
    match i
    case Activate(enabled, _) => enabled ==> c.codecs != []
    case PipelineMoves(input) => !input.SetCodec? && !input.SetCrypto? && !input.Start?
    case _ => true
  }

  function Apply(codec: LineCodec, c: Call, i: Input): Call
    requires Enabled(c, i)
  {
    match i
    case Offer(keys) => if c.mode.NoEncryption? then c else c.(context := MakeOffer(c.context, keys).0)
    case RemoteMedia(media) => if c.mode.NoEncryption? then c else c.(context := SetRemote(codec, c.context, media).0)
    case Codecs(codecs) => if codecs == [] then c else c.(codecs := codecs)
    case Answer(keys) => Answered(c, keys)
    case Activate(enabled, setup) =>
      if enabled then Activated(c, setup) else c.(pipe := MediaPipeline.Apply(c.pipe, MediaPipeline.Stop))
    case PipelineMoves(input) => c.(pipe := MediaPipeline.Apply(c.pipe, input))
    case StateBecomes(state) => c.(state := state)
  }

  function Initial(mode: Encryption, state: CallState): Call
  {
    Call(NEW_CONTEXT, MediaPipeline.Constructed(true), mode, state, [], [])
  }

  predicate Possible(codec: LineCodec, c: Call, inputs: seq<Input>)
    decreases |inputs|
  {
    inputs == [] || (Enabled(c, inputs[0]) && Possible(codec, Apply(codec, c, inputs[0]), inputs[1..]))
  }

  function Run(codec: LineCodec, c: Call, inputs: seq<Input>): Call
    requires Possible(codec, c, inputs)
    decreases |inputs|
  {
    if inputs == [] then c else Run(codec, Apply(codec, c, inputs[0]), inputs[1..])
  }

  // ----- The mode is honoured -----

  /** The codec of a started pipeline, if any, was set up with SRTP already on. */
  ghost predicate OnlyEncrypted(p: MediaPipeline.Pipe)
  {
    p.codec.Some? || MediaPipeline.Summary(p.log).starts > 0 ==>
      p.useSrtp && MediaPipeline.Summary(p.log).codecSrtp
  }

  /** The keys of the pipeline are the negotiated ones. */
  ghost predicate NegotiatedKeys(c: Call)
  {
    c.pipe.useSrtp ==>
      && c.context.state.NegotiationSuccess?
      && c.pipe.own == LocalCrypto(c.context) && c.pipe.theirs == RemoteCrypto(c.context)
      && MediaPipeline.KeysFit(c.pipe.own, c.pipe.theirs)
  }

  ghost predicate ResponsesFit(mode: Encryption, sent: seq<Response>)
  {
    forall k :: 0 <= k < |sent| && sent[k].status == 200 ==>
      (mode.ForcedEncryption? ==> sent[k].crypto != []) && (mode.NoEncryption? ==> sent[k].crypto == [])
  }

  ghost predicate CallInv(c: Call)
  {
    && SdpCrypto.Inv(c.context)
    && MediaPipeline.LifeCycle(c.pipe)
    && NegotiatedKeys(c)
    && ResponsesFit(c.mode, c.sent)
    && (c.mode.ForcedEncryption? ==> OnlyEncrypted(c.pipe))
    && (c.mode.NoEncryption? ==> c.context.state.Init? && !c.pipe.useSrtp)
  }

  lemma ContextKeepsInv(c: Call, context: Context)
    requires CallInv(c) && !c.mode.NoEncryption? && SdpCrypto.Inv(context)
    requires c.context.state.NegotiationSuccess? ==> context == c.context
    ensures CallInv(c.(context := context))
  {
  }

  lemma ContextMoves(codec: LineCodec, c: Call, op: Op)
    requires Parses(codec) && CallInv(c) && !c.mode.NoEncryption?
    ensures CallInv(c.(context := Do(codec, c.context, op).0))
  {
    OperationsKeepInv(codec, c.context, op);
    ContextKeepsInv(c, Do(codec, c.context, op).0);
  }

  lemma OneMoreResponse(mode: Encryption, sent: seq<Response>, response: Response)
    requires ResponsesFit(mode, sent) && ResponsesFit(mode, [response])
    ensures ResponsesFit(mode, sent + [response])
  {
    assert [response][0] == response;
  }

  lemma ResponseKeepsInv(c: Call, response: Response)
    requires CallInv(c) && ResponsesFit(c.mode, [response])
    ensures CallInv(Respond(c, response.status, response.crypto))
  {
    OneMoreResponse(c.mode, c.sent, response);
  }

  lemma OfferAnsweredKeepsInv(c: Call, keys: Suite -> string)
    requires CallInv(c) && c.context.state.OfferRemote? && !c.mode.NoEncryption?
    ensures Answered(c, keys) == (if c.state.Incoming? then
              var context := MakeAnswer(c.context, keys).0;
              Respond(c.(context := context), 200, context.local).(state := Active)
            else c)
    ensures CallInv(Answered(c, keys))
  {
    AnsweringSucceeds(c.context, keys);
    var context := MakeAnswer(c.context, keys).0;
    AnswerKeepsInv(c.context, keys);
    ContextKeepsInv(c, context);
    ResponseKeepsInv(c.(context := context), Response(200, context.local));
  }

  lemma AnsweredKeepsInv(c: Call, keys: Suite -> string)
    requires CallInv(c)
    ensures CallInv(Answered(c, keys))
  {
    if c.context.state.OfferRemote? {
      if !c.mode.NoEncryption? {
        OfferAnsweredKeepsInv(c, keys);
      }
    } else if c.state.Incoming? && !c.mode.ForcedEncryption? {
      ResponseKeepsInv(c, Response(200, []));
    }
  }

  /** A pipeline input that gives neither codec nor keys nor starts keeps the books. */
  lemma EnterIsQuiet(p: MediaPipeline.Pipe, s: MediaPipeline.PipelineState)
    ensures SameBooks(p, MediaPipeline.Enter(p, s))
  {
    MediaPipeline.SummaryOfMore(p.log, MediaPipeline.StateSet(s));
  }

  ghost predicate SameBooks(p: MediaPipeline.Pipe, q: MediaPipeline.Pipe)
  {
    && q.codec == p.codec && q.useSrtp == p.useSrtp && q.own == p.own && q.theirs == p.theirs
    && MediaPipeline.Summary(q.log).starts == MediaPipeline.Summary(p.log).starts
    && MediaPipeline.Summary(q.log).codecSrtp == MediaPipeline.Summary(p.log).codecSrtp
  }

  lemma CheckIsQuiet(p: MediaPipeline.Pipe)
    ensures SameBooks(p, MediaPipeline.Check(p))
  {
    var all := MediaPipeline.RequiredElements(p.useSrtp);
    var next := MediaPipeline.Check(p);
    if p.maps.playing == all {
      EnterIsQuiet(p, MediaPipeline.Playing);
    } else if p.maps.paused == all {
      EnterIsQuiet(p, MediaPipeline.Paused);
    } else if p.maps.stopped == all {
      EnterIsQuiet(p, MediaPipeline.Stopped);
    } else {
      MediaPipeline.SummaryOfMore(p.log, MediaPipeline.SendingStarted);
      assert next.log == p.log || next.log == p.log + [MediaPipeline.SendingStarted];
    }
  }

  lemma QuietInput(p: MediaPipeline.Pipe, i: MediaPipeline.Input)
    requires !i.SetCodec? && !i.SetCrypto? && !i.Start?
    ensures SameBooks(p, MediaPipeline.Apply(p, i))
  {
    match i
    case StateReport(source, s) =>
      MediaPipeline.SummaryOfMore(p.log, MediaPipeline.Report(source, s));
      CheckIsQuiet(p.(maps := MediaPipeline.Move(p.maps, source, s), log := p.log + [MediaPipeline.Report(source, s)]));
    case EndOfStream => EnterIsQuiet(p, MediaPipeline.StopPending);
    case Stop => EnterIsQuiet(p, MediaPipeline.StopPending);
    case Pause(pause) => EnterIsQuiet(p, if pause then MediaPipeline.PausePending else MediaPipeline.PlayPending);
    case _ =>
  }

  lemma KeyedKeepsInv(c: Call)
    requires CallInv(c)
    ensures CallInv(Keyed(c)) && (c.context.state.NegotiationSuccess? ==> Keyed(c).pipe.useSrtp)
    ensures Keyed(c).pipe.log == c.pipe.log && Keyed(c).pipe.codec == c.pipe.codec
  {
    if c.context.state.NegotiationSuccess? {
      var mine, theirs := LocalCrypto(c.context), RemoteCrypto(c.context);
      MediaPipeline.StepKeepsLifeCycle(c.pipe, MediaPipeline.SetCrypto(mine, theirs));
    }
  }

  /** A codec that can be set up belongs to the keys the pipeline has then; one that cannot leaves the books as
      they are. */
  lemma CodecBooks(p: MediaPipeline.Pipe, codec: MediaPipeline.Codec, setup: Setup)
    requires MediaPipeline.LifeCycle(p)
    ensures var i := MediaPipeline.SetCodec(codec, setup.available, setup.setupOk, setup.linkOk);
            var q := MediaPipeline.Apply(p, i);
            && q.useSrtp == p.useSrtp && q.own == p.own && q.theirs == p.theirs
            && (SameBooks(p, q) || MediaPipeline.Summary(q.log).codecSrtp == p.useSrtp)
  {
    if p.codec.None? && setup.available {
      if setup.setupOk && setup.linkOk {
        var entry := MediaPipeline.CodecSet(codec, p.useSrtp);
        MediaPipeline.SummaryOfMore(p.log, entry);
        MediaPipeline.SummaryOfMore(p.log + [entry], MediaPipeline.StateSet(MediaPipeline.Ready));
      } else {
        EnterIsQuiet(p, MediaPipeline.Error);
      }
    }
  }

  lemma CodecKeepsInv(c: Call, setup: Setup)
    requires CallInv(c) && c.codecs != [] && (c.mode.ForcedEncryption? ==> c.pipe.useSrtp)
    ensures CallInv(c.(pipe := MediaPipeline.Apply(c.pipe,
                     MediaPipeline.SetCodec(c.codecs[0], setup.available, setup.setupOk, setup.linkOk))))
  {
    var i := MediaPipeline.SetCodec(c.codecs[0], setup.available, setup.setupOk, setup.linkOk);
    MediaPipeline.StepKeepsLifeCycle(c.pipe, i);
    CodecBooks(c.pipe, c.codecs[0], setup);
  }

  lemma StartKeepsInv(c: Call)
    requires CallInv(c)
    ensures CallInv(c.(pipe := MediaPipeline.Apply(c.pipe, MediaPipeline.Start)))
  {
    MediaPipeline.StepKeepsLifeCycle(c.pipe, MediaPipeline.Start);
    MediaPipeline.SummaryOfMore(c.pipe.log, MediaPipeline.Started);
    var started := c.pipe.log + [MediaPipeline.Started];
    MediaPipeline.SummaryOfMore(started, MediaPipeline.StateSet(MediaPipeline.PlayPending));
  }

  lemma ActivateKeepsInv(c: Call, setup: Setup)
    requires CallInv(c) && c.codecs != []
    ensures CallInv(Activated(c, setup))
  {
    if c.context.state.NegotiationSuccess? || !c.mode.ForcedEncryption? {
      KeyedKeepsInv(c);
      var k := Keyed(c);
      if k.pipe.state.NeedCodec? {
        CodecKeepsInv(k, setup);
        StartKeepsInv(k.(pipe := MediaPipeline.Apply(k.pipe,
          MediaPipeline.SetCodec(c.codecs[0], setup.available, setup.setupOk, setup.linkOk))));
      } else {
        StartKeepsInv(k);
      }
    }
  }

  lemma StopKeepsInv(c: Call)
    requires CallInv(c)
    ensures CallInv(c.(pipe := MediaPipeline.Apply(c.pipe, MediaPipeline.Stop)))
  {
    MediaPipeline.StepKeepsLifeCycle(c.pipe, MediaPipeline.Stop);
    QuietInput(c.pipe, MediaPipeline.Stop);
  }

  lemma StepKeepsInv(codec: LineCodec, c: Call, i: Input)
    requires Parses(codec) && CallInv(c) && Enabled(c, i)
    ensures CallInv(Apply(codec, c, i))
  {
    match i
    case Offer(keys) => if !c.mode.NoEncryption? { ContextMoves(codec, c, OpOffer(keys)); }
    case RemoteMedia(media) => if !c.mode.NoEncryption? { ContextMoves(codec, c, OpSetRemote(media)); }
    case Codecs(_) =>
    case Answer(keys) => AnsweredKeepsInv(c, keys);
    case Activate(enabled, setup) =>
      if enabled {
        ActivateKeepsInv(c, setup);
      } else {
        StopKeepsInv(c);
      }
    case PipelineMoves(input) =>
      MediaPipeline.StepKeepsLifeCycle(c.pipe, input);
      QuietInput(c.pipe, input);
    case StateBecomes(_) =>
  }

  /** The encryption mode is honoured on every run of a call. Forced: a pipeline that was started, or
      only given a codec, has SRTP on with the negotiated keys and its codec was set up with SRTP
      already on; every 200 carries crypto lines. Disabled: no SRTP and no crypto lines. */
  lemma {:induction false} ModeHonoured(codec: LineCodec, c: Call, inputs: seq<Input>)
    requires Parses(codec) && CallInv(c) && Possible(codec, c, inputs)
    ensures var last := Run(codec, c, inputs);
            && CallInv(last) && last.mode == c.mode
            && (c.mode.ForcedEncryption? && MediaPipeline.Summary(last.pipe.log).starts > 0 ==>
                  && last.pipe.useSrtp && MediaPipeline.Summary(last.pipe.log).codecSrtp
                  && last.context.state.NegotiationSuccess?
                  && last.pipe.own == LocalCrypto(last.context) && last.pipe.theirs == RemoteCrypto(last.context))
            && (c.mode.NoEncryption? ==> !last.pipe.useSrtp)
    decreases |inputs|
  {
    if inputs != [] {
      StepKeepsInv(codec, c, inputs[0]);
      ModeHonoured(codec, Apply(codec, c, inputs[0]), inputs[1..]);
    }
  }

  ghost predicate AllAccepted(sent: seq<Response>)
  {
    forall k :: 0 <= k < |sent| ==> sent[k].status == 200
  }

  /** The refusal the code has for an answer that cannot be generated is never sent. */
  lemma {:induction false} NeverRefused(codec: LineCodec, c: Call, inputs: seq<Input>)
    requires Parses(codec) && CallInv(c) && Possible(codec, c, inputs) && AllAccepted(c.sent)
    ensures AllAccepted(Run(codec, c, inputs).sent)
    decreases |inputs|
  {
    if inputs != [] {
      StepKeepsInv(codec, c, inputs[0]);
      if inputs[0].Answer? && c.context.state.OfferRemote? && !c.mode.NoEncryption? {
        OfferAnsweredKeepsInv(c, inputs[0].keys);
      }
      NeverRefused(codec, Apply(codec, c, inputs[0]), inputs[1..]);
    }
  }

  lemma InitialIsSound(mode: Encryption, state: CallState)
    ensures CallInv(Initial(mode, state))
  {
    MediaPipeline.ConstructedIsSound(true);
    var log := MediaPipeline.Constructed(true).log;
    assert log[..1] == [MediaPipeline.StateSet(MediaPipeline.Initializing)] && log[..1][..0] == [];
    assert MediaPipeline.Summary(log) == MediaPipeline.Note(MediaPipeline.Summary(log[..1]), log[1]);
  }

  /** What an answered call does once its media are activated and the codec can be set up. */
  ghost predicate Runs(c: Call, encrypted: bool)
    requires c.codecs != []
  {
    var started := Activated(c, Setup(true, true, true));
    && started.pipe.state.PlayPending? && started.pipe.useSrtp == encrypted
    && (encrypted ==> started.pipe.own == LocalCrypto(c.context) && started.pipe.theirs == RemoteCrypto(c.context))
  }

  predicate Unstarted(c: Call)
  {
    c.codecs != [] && c.pipe.state.NeedCodec? && c.pipe.codec.None? && !c.pipe.useSrtp
  }

  /** Answered with a key of its own for the first attribute offered, to run encrypted. */
  ghost predicate AnsweredKeyed(c: Call, answered: Call, keys: Suite -> string)
    requires c.codecs != [] && c.context.remote != []
  {
    var first := c.context.remote[0];
    && answered.state == Active && answered.codecs == c.codecs && answered.mode == c.mode
    && answered.sent == c.sent + [Response(200, [Attr(first.tag, first.suite, keys(first.suite), false, false, false)])]
    && answered.pipe == c.pipe && Runs(answered, true)
  }

  /** Answered without a key, to run unencrypted. */
  ghost predicate AnsweredPlain(c: Call, answered: Call)
    requires c.codecs != []
  {
    answered == c.(state := Active, sent := c.sent + [Response(200, [])]) && Runs(answered, false)
  }

  lemma OfferedCallEncrypted(c: Call, keys: Suite -> string)
    requires CallInv(c) && !c.mode.NoEncryption? && c.state.Incoming? && Unstarted(c)
    requires c.context.state.OfferRemote?
    ensures AnsweredKeyed(c, Answered(c, keys), keys)
  {
    OfferAnsweredKeepsInv(c, keys);
    AnsweringSucceeds(c.context, keys);
    var answered := Answered(c, keys);
    KeysOfSuccessFit(answered.context);
    StartEncrypted(answered);
  }

  /** What answering an incoming call does in each of the three modes. Without encryption it is always
      answered, plainly. With preferred encryption it is always answered, and runs encrypted exactly if it was
      offered keys. With forced encryption it is answered exactly if it was, and otherwise left alone. */
  lemma IncomingCallEncryptedIff(c: Call, keys: Suite -> string)
    requires CallInv(c) && c.state.Incoming? && Unstarted(c)
    requires c.context.state.Init? || c.context.state.OfferRemote?
    ensures var answered := Answered(c, keys);
            match c.mode
            case NoEncryption => AnsweredPlain(c, answered)
            case PreferredEncryption =>
              if c.context.state == OfferRemote then AnsweredKeyed(c, answered, keys) else AnsweredPlain(c, answered)
            case ForcedEncryption =>
              if c.context.state == OfferRemote then AnsweredKeyed(c, answered, keys) else answered == c
  {
    if c.context.state.OfferRemote? {
      OfferedCallEncrypted(c, keys);
    } else if !c.mode.ForcedEncryption? {
      StartPlain(Answered(c, keys));
    }
  }

  /** An outgoing call that made this program's offer runs encrypted exactly if the answer is acceptable;
      otherwise it runs plain if it only prefers encryption, and not at all if it forces it. */
  lemma OutgoingCallEncryptedIff(codec: LineCodec, c: Call, keys: Suite -> string, media: seq<MediaAttribute>,
                                 at: seq<nat>)
    requires Parses(codec) && CallInv(c) && !c.mode.NoEncryption? && Unstarted(c)
    requires c.context == MakeOffer(NEW_CONTEXT, keys).0 && HeardAt(codec, media, at)
    ensures var answer := HeardThere(codec, media, at);
            var heard := Apply(codec, c, RemoteMedia(media));
            && heard.codecs == c.codecs
            && (if answer != [] && Acceptable(answer) then Runs(heard, true)
                else if c.mode.PreferredEncryption? then Runs(heard, false)
                else forall setup :: Activated(heard, setup) == heard)
  {
    var heard := Apply(codec, c, RemoteMedia(media));
    OfferKeepsInv(NEW_CONTEXT, keys);
    OperationsKeepInv(codec, c.context, OpSetRemote(media));
    HearsInOrder(codec, c.context, media, at);
    if at != [] {
      ForeignAnswerIff(codec, keys, media, at);
    }
    if heard.context.state.NegotiationSuccess? {
      KeysOfSuccessFit(heard.context);
      StartEncrypted(heard);
    } else if c.mode.PreferredEncryption? {
      StartPlain(heard);
    }
  }

  /** What activating the media of a call does, however GStreamer reacts: nothing if encryption is forced and not
      negotiated; otherwise the pipeline uses the negotiated keys, if any, and starts, unless its codec is not
      available or fails to be set up. */
  lemma ActivationMeans(c: Call, setup: Setup)
    requires CallInv(c) && Unstarted(c)
    ensures var started := Activated(c, setup);
            var negotiated := c.context.state == NegotiationSuccess;
            if c.mode == ForcedEncryption && !negotiated then
              started == c
            else
              && started == c.(pipe := started.pipe) && started.pipe.useSrtp == negotiated
              && (negotiated ==>
                    started.pipe.own == LocalCrypto(c.context) && started.pipe.theirs == RemoteCrypto(c.context))
              && started.pipe.state == (if !setup.available then MediaPipeline.NeedCodec
                                        else if setup.setupOk && setup.linkOk then MediaPipeline.PlayPending
                                        else MediaPipeline.Error)
              && started.pipe.codec == (if setup == Setup(true, true, true) then Some(c.codecs[0]) else None)
  {
    if c.context.state.NegotiationSuccess? {
      KeysOfSuccessFit(c.context);
    }
  }

  const GOOD_SETUP := Setup(true, true, true)

  /** Where a call ends: whether it runs, and with which keys. */
  ghost predicate Ends(last: Call, runs: bool, keys: Option<(Attr, Attr)>, codec: MediaPipeline.Codec)
  {
    && last.pipe.state == (if runs then MediaPipeline.PlayPending else MediaPipeline.NeedCodec)
    && last.pipe.codec == (if runs then Some(codec) else None)
    && (last.pipe.useSrtp <==> keys.Some?)
    && (keys.Some? ==> last.pipe.own == Some(keys.value.0) && last.pipe.theirs == Some(keys.value.1))
  }

  lemma {:induction false} RunTwo(codec: LineCodec, c: Call, a: seq<Input>, b: seq<Input>)
    requires Possible(codec, c, a) && Possible(codec, Run(codec, c, a), b)
    ensures Possible(codec, c, a + b) && Run(codec, c, a + b) == Run(codec, Run(codec, c, a), b)
    decreases |a|
  {
    if a == [] {
      assert a + b == b;
    } else {
      assert (a + b)[0] == a[0] && (a + b)[1..] == a[1..] + b;
      RunTwo(codec, Apply(codec, c, a[0]), a[1..], b);
    }
  }

  lemma RunOne(codec: LineCodec, c: Call, i: Input)
    requires Enabled(c, i)
    ensures Possible(codec, c, [i]) && Run(codec, c, [i]) == Apply(codec, c, i)
  {
    assert [i][1..] == [];
    assert Possible(codec, Apply(codec, c, i), []);
  }

  /** An incoming call from its first message to its media, in any mode and with any description of the other
      side's media: it is answered unless encryption is forced and nothing can be heard in the description; it
      runs encrypted exactly if something can, and encryption is not disabled; and then the keys are one of its
      own, sent in the response, and the first that was heard. */
  lemma IncomingCall(codec: LineCodec, mode: Encryption, codecs: seq<MediaPipeline.Codec>,
                     media: seq<MediaAttribute>, at: seq<nat>, keys: Suite -> string)
    requires Parses(codec) && codecs != [] && HeardAt(codec, media, at)
    ensures var inputs := [Codecs(codecs), RemoteMedia(media), Answer(keys)] + [Activate(true, GOOD_SETUP)];
            && Possible(codec, Initial(mode, Incoming), inputs) &&
            var last := Run(codec, Initial(mode, Incoming), inputs);
            if mode != NoEncryption && at != [] then
              var first := HeardThere(codec, media, at)[0];
              var mine := Attr(first.tag, first.suite, keys(first.suite), false, false, false);
              && last.state == Active && last.sent == [Response(200, [mine])]
              && Ends(last, true, Some((mine, first)), codecs[0])
            else if mode != ForcedEncryption then
              last.state == Active && last.sent == [Response(200, [])] && Ends(last, true, None, codecs[0])
            else
              last.state == Incoming && last.sent == [] && Ends(last, false, None, codecs[0])
  {
    var start := Initial(mode, Incoming);
    InitialIsSound(mode, Incoming);
    var ready := Apply(codec, start, Codecs(codecs));
    var heard := Apply(codec, ready, RemoteMedia(media));
    HearsInOrder(codec, NEW_CONTEXT, media, at);
    StepKeepsInv(codec, ready, RemoteMedia(media));
    IncomingCallEncryptedIff(heard, keys);
    AnsweredKeepsInv(heard, keys);
    var answered := Answered(heard, keys);
    if heard.context.state.OfferRemote? {
      AnsweringSucceeds(heard.context, keys);
    }
    ActivationMeans(answered, GOOD_SETUP);
    var inputs := [Codecs(codecs), RemoteMedia(media), Answer(keys)];
    ThreeSteps(codec, start, inputs[0], inputs[1], inputs[2]);
    RunOne(codec, answered, Activate(true, GOOD_SETUP));
    RunTwo(codec, start, inputs, [Activate(true, GOOD_SETUP)]);
  }

  lemma ThreeSteps(codec: LineCodec, c: Call, i: Input, j: Input, k: Input)
    requires Enabled(c, i) && Enabled(Apply(codec, c, i), j) && Enabled(Apply(codec, Apply(codec, c, i), j), k)
    ensures Possible(codec, c, [i, j, k])
    ensures Run(codec, c, [i, j, k]) == Apply(codec, Apply(codec, Apply(codec, c, i), j), k)
  {
    RunOne(codec, c, i);
    RunOne(codec, Apply(codec, c, i), j);
    RunTwo(codec, c, [i], [j]);
    RunOne(codec, Apply(codec, Apply(codec, c, i), j), k);
    RunTwo(codec, c, [i] + [j], [k]);
    assert [i] + [j] + [k] == [i, j, k];
  }

  /** An outgoing call from its offer to its media: it runs encrypted exactly if encryption is not disabled and
      the answer is acceptable; otherwise it runs unencrypted, unless encryption is forced. */
  lemma OutgoingCall(codec: LineCodec, mode: Encryption, codecs: seq<MediaPipeline.Codec>,
                     media: seq<MediaAttribute>, at: seq<nat>, keys: Suite -> string)
    requires Parses(codec) && codecs != [] && HeardAt(codec, media, at)
    ensures var inputs := [Codecs(codecs), Offer(keys), RemoteMedia(media)] + [Activate(true, GOOD_SETUP)];
            && Possible(codec, Initial(mode, Dialing), inputs) &&
            var last := Run(codec, Initial(mode, Dialing), inputs);
            && last.sent == [] && last.state == Dialing
            && (if mode != NoEncryption && at != [] && Acceptable(HeardThere(codec, media, at)) then
                  var mine, theirs := LocalCrypto(last.context), RemoteCrypto(last.context);
                  && last.context.state == NegotiationSuccess && mine.Some? && theirs.Some?
                  && Ends(last, true, Some((mine.value, theirs.value)), codecs[0])
                else
                  Ends(last, mode != ForcedEncryption, None, codecs[0]))
  {
    var start := Initial(mode, Dialing);
    InitialIsSound(mode, Dialing);
    var ready := Apply(codec, start, Codecs(codecs));
    var offered := Apply(codec, ready, Offer(keys));
    var heard := Apply(codec, offered, RemoteMedia(media));
    StepKeepsInv(codec, ready, Offer(keys));
    StepKeepsInv(codec, offered, RemoteMedia(media));
    if mode != NoEncryption {
      OfferKeepsInv(NEW_CONTEXT, keys);
      HearsInOrder(codec, offered.context, media, at);
      if at != [] {
        ForeignAnswerIff(codec, keys, media, at);
      }
    }
    ActivationMeans(heard, GOOD_SETUP);
    var inputs := [Codecs(codecs), Offer(keys), RemoteMedia(media)];
    ThreeSteps(codec, start, inputs[0], inputs[1], inputs[2]);
    RunOne(codec, heard, Activate(true, GOOD_SETUP));
    RunTwo(codec, start, inputs, [Activate(true, GOOD_SETUP)]);
  }

  function Moves(inputs: seq<MediaPipeline.Input>): seq<Input>
  {
    seq(|inputs|, k requires 0 <= k < |inputs| => PipelineMoves(inputs[k]))
  }

  lemma {:induction false} PipelineRuns(codec: LineCodec, c: Call, inputs: seq<MediaPipeline.Input>)
    requires forall k :: 0 <= k < |inputs| ==> inputs[k].StateReport?
    ensures Possible(codec, c, Moves(inputs))
    ensures Run(codec, c, Moves(inputs)) == c.(pipe := MediaPipeline.Run(c.pipe, inputs))
    decreases |inputs|
  {
    if inputs != [] {
      PipelineRuns(codec, Apply(codec, c, PipelineMoves(inputs[0])), inputs[1..]);
      assert Moves(inputs)[1..] == Moves(inputs[1..]);
    }
  }

  /** The media of a started call play once every element its pipeline consists of has reported so, in whatever
      order, and stop when they are deactivated. */
  lemma StartedCallPlays(codec: LineCodec, c: Call, order: seq<MediaPipeline.Element>, setup: Setup)
    requires c.pipe.maps == MediaPipeline.Maps({}, {}, {})
    requires (set e | e in order) == MediaPipeline.RequiredElements(c.pipe.useSrtp)
    ensures var moves := Moves(MediaPipeline.Reports(order, MediaPipeline.GstPlaying));
            && Possible(codec, c, moves) &&
            var playing := Run(codec, c, moves);
            && playing == c.(pipe := playing.pipe) && playing.pipe.state == MediaPipeline.Playing
            && Apply(codec, playing, Activate(false, setup)).pipe.state == MediaPipeline.StopPending
  {
    assert MediaPipeline.Pipeline in MediaPipeline.RequiredElements(c.pipe.useSrtp);
    assert {} + (set e | e in order) == (set e | e in order);
    PipelineRuns(codec, c, MediaPipeline.Reports(order, MediaPipeline.GstPlaying));
    MediaPipeline.PipelineArrives(c.pipe, order, MediaPipeline.GstPlaying);
  }

  /** The guards, also where the invariant excludes them: only an incoming call is answered; one with an offer is
      left alone if encryption is disabled, and refused if no answer can be made; only a codec list with a codec
      in it is taken. */
  lemma Guards(codec: LineCodec, c: Call, keys: Suite -> string, codecs: seq<MediaPipeline.Codec>, state: CallState)
    ensures c.state != Incoming || (c.context.state == OfferRemote && c.mode == NoEncryption) ==> Answered(c, keys) == c
    ensures c.state == Incoming && c.context.state == OfferRemote && c.mode != NoEncryption
            && !MakeAnswer(c.context, keys).1 ==>
              Answered(c, keys) == c.(sent := c.sent + [Response(488, [])], context := MakeAnswer(c.context, keys).0)
    ensures Apply(codec, c, Codecs(codecs)) == if codecs == [] then c else c.(codecs := codecs)
    ensures Apply(codec, c, StateBecomes(state)) == c.(state := state)
  {
  }

  lemma KeysOfSuccessFit(context: Context)
    requires SdpCrypto.Inv(context) && context.state.NegotiationSuccess?
    ensures MediaPipeline.KeysFit(LocalCrypto(context), RemoteCrypto(context))
  {
  }

  lemma StartEncrypted(c: Call)
    requires Unstarted(c) && c.context.state.NegotiationSuccess?
    requires MediaPipeline.KeysFit(LocalCrypto(c.context), RemoteCrypto(c.context))
    ensures Runs(c, true)
  {
  }

  lemma StartPlain(c: Call)
    requires Unstarted(c) && !c.context.state.NegotiationSuccess? && !c.mode.ForcedEncryption?
    ensures Runs(c, false)
  {
  }

  // ----- The call object -----

  class SipCallObject {
    const context: CryptoContext
    const pipeline: MediaPipeline.SipMediaPipeline
    const mode: Encryption
    var state: CallState
    var codecs: seq<MediaPipeline.Codec>
    ghost var sent: seq<Response>

    ghost function View(): Call
      reads this, context, pipeline
    {
      Call(context.View(), pipeline.View(), mode, state, codecs, sent)
    }

    ghost predicate Valid()
      reads this, context, pipeline
    {
      pipeline.Valid() && CallInv(View())
    }

    constructor (mode: Encryption, inbound: bool)
      ensures Valid() && View() == Initial(mode, if inbound then Incoming else Dialing)
      ensures fresh(context) && fresh(pipeline)
    {
      this.mode, state, codecs, sent := mode, if inbound then Incoming else Dialing, [], [];
      context := new CryptoContext();
      pipeline := new MediaPipeline.SipMediaPipeline(true);
      new;
      InitialIsSound(mode, state);
    }

    method DoAnswer(keys: Suite -> string)
      requires Valid()
      modifies this, context
      ensures Valid() && View() == Answered(old(View()), keys)
    {
      AnsweredKeepsInv(View(), keys);
      if state != Incoming {
        return;
      }
      var localCrypto: seq<Attr> := [];
      if context.state == OfferRemote {
        if mode == NoEncryption {
          return;
        }
        var ok := context.GenerateAnswer(keys);
        if !ok {
          sent := sent + [Response(488, [])];
          return;
        }
        localCrypto := context.localCryptoAttributes;
      } else if mode == ForcedEncryption {
        return;
      }
      sent := sent + [Response(200, localCrypto)];
      state := Active;
    }

    method ActivateMedia(enabled: bool, setup: Setup)
      requires Valid() && (enabled ==> codecs != [])
      modifies pipeline
      ensures Valid()
      ensures enabled ==> View() == Activated(old(View()), setup)
      ensures !enabled ==> View() == old(View()).(pipe := MediaPipeline.Apply(old(View()).pipe, MediaPipeline.Stop))
    {
      if !enabled {
        StopKeepsInv(View());
        pipeline.DoStop();
        return;
      }
      ghost var before := View();
      if context.state == NegotiationSuccess {
        var remoteCrypto := context.GetRemoteCrypto();
        var localCrypto := context.GetLocalCrypto();
        pipeline.DoSetCrypto(localCrypto, remoteCrypto);
      } else if mode == ForcedEncryption {
        return;
      }
      assert View() == Keyed(before);
      SetUpAndStart(setup);
      ActivateKeepsInv(before, setup);
    }

    /** The part of activation that follows the keys. */
    method SetUpAndStart(setup: Setup)
      requires pipeline.Valid() && codecs != []
      modifies pipeline
      ensures pipeline.Valid() && View() == SetUp(old(View()), setup)
    {
      if pipeline.state == MediaPipeline.NeedCodec {
        pipeline.DoSetCodec(codecs[0], setup.available, setup.setupOk, setup.linkOk);
      }
      pipeline.DoStart();
    }
  }
}
