/** The media pipeline of a SIP call: its life cycle, and the three bitmaps that summarise what the
    elements of the pipeline last reported. */
module MediaPipeline {
  import opened CallStates
  import SdpCrypto

  datatype PipelineState =
    | Unknown | Error | Initializing | NeedCodec | Ready
    | PlayPending | Playing | PausePending | Paused | StopPending | Stopped

  datatype Element =
    | Pipeline | RtpBin | RtpSrc | RtpSink | RtcpSrc | RtcpSink
    | SrtpEncoder | SrtpDecoder | AudioSrc | AudioSink
    | Payloader | Depayloader | Encoder | Decoder

  datatype GstState = GstNull | GstReady | GstPaused | GstPlaying

  /** A codec, by its RTP payload type. */
  datatype Codec = Codec(payloadId: nat)

  /** Everything worth remembering about a pipeline, in order. */
  datatype Entry =
    | Report(source: Option<Element>, newState: GstState)
    | StateSet(state: PipelineState)
    | SendingStarted
    | CodecSet(codec: Codec, srtp: bool)
    | Started

  /** Which elements are marked playing, paused and stopped. */
  datatype Maps = Maps(playing: set<Element>, paused: set<Element>, stopped: set<Element>)

  datatype Pipe = Pipe(
    state: PipelineState,
    maps: Maps,
    emitted: bool,
    codec: Option<Codec>,
    useSrtp: bool,
    own: Option<SdpCrypto.Attr>,
    theirs: Option<SdpCrypto.Attr>,
    log: seq<Entry>)

  // ----- Bitmaps -----

  function Bit(e: Element): bv32
  {
    match e
    case Pipeline => 0x1
    case RtpBin => 0x2
    case RtpSrc => 0x4
    case RtpSink => 0x8
    case RtcpSrc => 0x10
    case RtcpSink => 0x20
    case SrtpEncoder => 0x40
    case SrtpDecoder => 0x80
    case AudioSrc => 0x100
    case AudioSink => 0x200
    case Payloader => 0x400
    case Depayloader => 0x800
    case Encoder => 0x1000
    case Decoder => 0x2000
  }

  const EL_SENDING: bv32 :=
    Bit(AudioSrc) | Bit(Encoder) | Bit(Payloader) | Bit(RtpBin) | Bit(RtpSink) | Bit(RtcpSink)

  const EL_ALL_RTP: bv32 :=
    Bit(Pipeline) | Bit(RtpBin) | Bit(RtpSrc) | Bit(RtpSink) | Bit(RtcpSrc) | Bit(RtcpSink)
    | Bit(AudioSrc) | Bit(AudioSink) | Bit(Encoder) | Bit(Decoder) | Bit(Payloader) | Bit(Depayloader)

  const EL_ALL_SRTP: bv32 := EL_ALL_RTP | Bit(SrtpEncoder) | Bit(SrtpDecoder)

  predicate Sends(e: Element)
  {
    e.AudioSrc? || e.Encoder? || e.Payloader? || e.RtpBin? || e.RtpSink? || e.RtcpSink?
  }

  /** The elements a pipeline consists of: the two SRTP elements only take part with SRTP. */
  predicate Required(useSrtp: bool, e: Element)
  {
    useSrtp || (!e.SrtpEncoder? && !e.SrtpDecoder?)
  }

  function AllElements(useSrtp: bool): bv32
  {
    if useSrtp then EL_ALL_SRTP else EL_ALL_RTP
  }

  predicate Has(m: bv32, b: bv32)
  {
    m & b != 0
  }

  lemma BitsApart(e: Element, f: Element)
    ensures e != f ==> Bit(e) & Bit(f) == 0
    ensures Bit(e) != 0
  {
  }

  lemma AllMasks(useSrtp: bool, e: Element)
    ensures Has(AllElements(useSrtp), Bit(e)) <==> Required(useSrtp, e)
  {
    assert EL_ALL_RTP == 0x3F3F && EL_ALL_SRTP == 0x3FFF;
    match e
    case Pipeline =>
    case RtpBin =>
    case RtpSrc =>
    case RtpSink =>
    case RtcpSrc =>
    case RtcpSink =>
    case SrtpEncoder =>
    case SrtpDecoder =>
    case AudioSrc =>
    case AudioSink =>
    case Payloader =>
    case Depayloader =>
    case Encoder =>
    case Decoder =>
  }

  // The bit facts come first for plain words, one operator at a time, and only then for elements.

  lemma OrSame(m: bv32, a: bv32)
    requires a != 0
    ensures (m | a) & a != 0
  {
  }

  lemma AndNotSame(m: bv32, a: bv32)
    ensures (m & (0xFFFF_FFFF ^ a)) & a == 0
  {
  }

  lemma OrOther(m: bv32, a: bv32, b: bv32)
    requires a & b == 0
    ensures (m | a) & b == m & b
  {
  }

  lemma AndNotOther(m: bv32, a: bv32, b: bv32)
    requires a & b == 0
    ensures (m & (0xFFFF_FFFF ^ a)) & b == m & b
  {
  }

  lemma EqualWordsTestAlike(x: bv32, y: bv32)
    requires x == y
    ensures x != 0 <==> y != 0
  {
  }

  lemma RaiseSame(m: bv32, a: bv32)
    requires a != 0
    ensures Has(m | a, a)
  {
    OrSame(m, a);
  }

  lemma RaiseOther(m: bv32, a: bv32, b: bv32)
    requires a & b == 0
    ensures Has(m | a, b) <==> Has(m, b)
  {
    OrOther(m, a, b);
    EqualWordsTestAlike((m | a) & b, m & b);
  }

  lemma ClearSame(m: bv32, a: bv32)
    ensures !Has(m & (0xFFFF_FFFF ^ a), a)
  {
    AndNotSame(m, a);
  }

  lemma ClearOther(m: bv32, a: bv32, b: bv32)
    requires a & b == 0
    ensures Has(m & (0xFFFF_FFFF ^ a), b) <==> Has(m, b)
  {
    AndNotOther(m, a, b);
    EqualWordsTestAlike((m & (0xFFFF_FFFF ^ a)) & b, m & b);
  }

  lemma OwnBit(m: bv32, e: Element)
    ensures Has(m | Bit(e), Bit(e)) && !Has(m & (0xFFFF_FFFF ^ Bit(e)), Bit(e))
  {
    BitsApart(e, e);
    RaiseSame(m, Bit(e));
    ClearSame(m, Bit(e));
  }

  lemma RaisedOtherBit(m: bv32, e: Element, f: Element)
    requires e != f
    ensures Has(m | Bit(e), Bit(f)) <==> Has(m, Bit(f))
  {
    BitsApart(e, f);
    RaiseOther(m, Bit(e), Bit(f));
  }

  lemma ClearedOtherBit(m: bv32, e: Element, f: Element)
    requires e != f
    ensures Has(m & (0xFFFF_FFFF ^ Bit(e)), Bit(f)) <==> Has(m, Bit(f))
  {
    BitsApart(e, f);
    ClearOther(m, Bit(e), Bit(f));
  }

  /** Raising and clearing one element's bit changes that element's membership and no other. */
  lemma RaiseAndClear(m: bv32, e: Element, f: Element)
    ensures Has(m | Bit(e), Bit(f)) <==> e == f || Has(m, Bit(f))
    ensures Has(m & (0xFFFF_FFFF ^ Bit(e)), Bit(f)) <==> e != f && Has(m, Bit(f))
  {
    if e == f {
      OwnBit(m, e);
    } else {
      RaisedOtherBit(m, e, f);
      ClearedOtherBit(m, e, f);
    }
  }

  lemma SameBit(m: bv32, n: bv32, e: Element, b: bv32)
    requires b == Bit(e)
    requires Has(m, Bit(e)) <==> Has(n, Bit(e))
    ensures m & b == n & b
  {
    match e
    case Pipeline =>
    case RtpBin =>
    case RtpSrc =>
    case RtpSink =>
    case RtcpSrc =>
    case RtcpSink =>
    case SrtpEncoder =>
    case SrtpDecoder =>
    case AudioSrc =>
    case AudioSink =>
    case Payloader =>
    case Depayloader =>
    case Encoder =>
    case Decoder =>
  }

  lemma JoinLow(m: bv32, n: bv32)
    requires m & 0x1 == n & 0x1
    requires m & 0x2 == n & 0x2
    requires m & 0x4 == n & 0x4
    requires m & 0x8 == n & 0x8
    requires m & 0x10 == n & 0x10
    requires m & 0x20 == n & 0x20
    requires m & 0x40 == n & 0x40
    ensures m & 0x7f == n & 0x7f
  {
  }

  lemma SameLow(m: bv32, n: bv32)
    requires Has(m, Bit(Pipeline)) <==> Has(n, Bit(Pipeline))
    requires Has(m, Bit(RtpBin)) <==> Has(n, Bit(RtpBin))
    requires Has(m, Bit(RtpSrc)) <==> Has(n, Bit(RtpSrc))
    requires Has(m, Bit(RtpSink)) <==> Has(n, Bit(RtpSink))
    requires Has(m, Bit(RtcpSrc)) <==> Has(n, Bit(RtcpSrc))
    requires Has(m, Bit(RtcpSink)) <==> Has(n, Bit(RtcpSink))
    requires Has(m, Bit(SrtpEncoder)) <==> Has(n, Bit(SrtpEncoder))
    ensures m & 0x7f == n & 0x7f
  {
    SameBit(m, n, Pipeline, 0x1);
    SameBit(m, n, RtpBin, 0x2);
    SameBit(m, n, RtpSrc, 0x4);
    SameBit(m, n, RtpSink, 0x8);
    SameBit(m, n, RtcpSrc, 0x10);
    SameBit(m, n, RtcpSink, 0x20);
    SameBit(m, n, SrtpEncoder, 0x40);
    JoinLow(m, n);
  }

  lemma JoinHigh(m: bv32, n: bv32)
    requires m & 0x80 == n & 0x80
    requires m & 0x100 == n & 0x100
    requires m & 0x200 == n & 0x200
    requires m & 0x400 == n & 0x400
    requires m & 0x800 == n & 0x800
    requires m & 0x1000 == n & 0x1000
    requires m & 0x2000 == n & 0x2000
    ensures m & 0x3f80 == n & 0x3f80
  {
  }

  lemma SameHigh(m: bv32, n: bv32)
    requires Has(m, Bit(SrtpDecoder)) <==> Has(n, Bit(SrtpDecoder))
    requires Has(m, Bit(AudioSrc)) <==> Has(n, Bit(AudioSrc))
    requires Has(m, Bit(AudioSink)) <==> Has(n, Bit(AudioSink))
    requires Has(m, Bit(Payloader)) <==> Has(n, Bit(Payloader))
    requires Has(m, Bit(Depayloader)) <==> Has(n, Bit(Depayloader))
    requires Has(m, Bit(Encoder)) <==> Has(n, Bit(Encoder))
    requires Has(m, Bit(Decoder)) <==> Has(n, Bit(Decoder))
    ensures m & 0x3f80 == n & 0x3f80
  {
    SameBit(m, n, SrtpDecoder, 0x80);
    SameBit(m, n, AudioSrc, 0x100);
    SameBit(m, n, AudioSink, 0x200);
    SameBit(m, n, Payloader, 0x400);
    SameBit(m, n, Depayloader, 0x800);
    SameBit(m, n, Encoder, 0x1000);
    SameBit(m, n, Decoder, 0x2000);
    JoinHigh(m, n);
  }

  lemma JoinHalves(m: bv32, n: bv32)
    requires m & 0x3FFF == m && n & 0x3FFF == n
    requires m & 0x7F == n & 0x7F && m & 0x3F80 == n & 0x3F80
    ensures m == n
  {
  }

  /** Maps that use element bits only are equal when they hold the same elements. */
  lemma SameElements(m: bv32, n: bv32)
    requires m & 0x3FFF == m && n & 0x3FFF == n
    requires forall e :: Has(m, Bit(e)) <==> Has(n, Bit(e))
    ensures m == n
  {
    SameLow(m, n);
    SameHigh(m, n);
    JoinHalves(m, n);
  }

  /** The elements a bitmap marks. */
  function Elements(m: bv32): set<Element>
  {
    set e: Element | Has(m, Bit(e))
  }

  predicate Foreign(b: bv32)
  {
    b & 0x3FFF == 0
  }

  /** No bit but those of the elements is set. */
  ghost predicate ElementBitsOnly(m: bv32)
  {
    forall b: bv32 {:trigger Foreign(b)} :: Foreign(b) ==> !Has(m, b)
  }

  lemma OrKeepsClear(m: bv32, a: bv32, b: bv32)
    requires m & b == 0 && a & b == 0
    ensures (m | a) & b == 0
  {
  }

  lemma AndNotKeepsClear(m: bv32, a: bv32, b: bv32)
    requires m & b == 0
    ensures (m & (0xFFFF_FFFF ^ a)) & b == 0
  {
  }

  lemma ElementBitIsNotForeign(e: Element, b: bv32)
    requires Foreign(b)
    ensures Bit(e) & b == 0
  {
  }

  lemma NoForeignBits(m: bv32)
    requires ElementBitsOnly(m)
    ensures m & 0x3FFF == m
  {
    assert Foreign(0xFFFF_C000);
    LowWord(m);
  }

  lemma LowWord(m: bv32)
    requires !Has(m, 0xFFFF_C000)
    ensures m & 0x3FFF == m
  {
  }

  lemma MoreElements(m: bv32, n: bv32, e: Element)
    requires forall f :: Has(n, Bit(f)) <==> e == f || Has(m, Bit(f))
    ensures Elements(n) == Elements(m) + {e}
  {
  }

  lemma FewerElements(m: bv32, n: bv32, e: Element)
    requires forall f :: Has(n, Bit(f)) <==> e != f && Has(m, Bit(f))
    ensures Elements(n) == Elements(m) - {e}
  {
  }

  /** Or-ing in an element's bit adds that element. */
  lemma RaiseAddsElement(m: bv32, e: Element)
    ensures Elements(m | Bit(e)) == Elements(m) + {e}
  {
    forall f ensures Has(m | Bit(e), Bit(f)) <==> e == f || Has(m, Bit(f)) {
      RaiseAndClear(m, e, f);
    }
    MoreElements(m, m | Bit(e), e);
  }

  /** And-ing with the complement of an element's bit removes that element. */
  lemma ClearRemovesElement(m: bv32, e: Element)
    ensures Elements(m & (0xFFFF_FFFF ^ Bit(e))) == Elements(m) - {e}
  {
    forall f ensures Has(m & (0xFFFF_FFFF ^ Bit(e)), Bit(f)) <==> e != f && Has(m, Bit(f)) {
      RaiseAndClear(m, e, f);
    }
    FewerElements(m, m & (0xFFFF_FFFF ^ Bit(e)), e);
  }

  lemma NoBit(m: bv32)
    ensures m | 0 == m && m & (0xFFFF_FFFF ^ 0) == m
  {
  }

  function SourceBit(source: Option<Element>): bv32
  {
    if source.Some? then Bit(source.value) else 0
  }

  function SetOf(source: Option<Element>): set<Element>
  {
    if source.Some? then {source.value} else {}
  }

  lemma MarkedElements(m: bv32, source: Option<Element>)
    ensures Elements(m | SourceBit(source)) == Elements(m) + SetOf(source)
  {
    if source.Some? {
      RaiseAddsElement(m, source.value);
    } else {
      NoBit(m);
    }
  }

  lemma UnmarkedElements(m: bv32, source: Option<Element>)
    ensures Elements(m & (0xFFFF_FFFF ^ SourceBit(source))) == Elements(m) - SetOf(source)
  {
    if source.Some? {
      ClearRemovesElement(m, source.value);
    } else {
      NoBit(m);
    }
  }

  lemma ForeignBitStaysClear(m: bv32, a: bv32, b: bv32)
    requires !Has(m, b) && a & b == 0
    ensures !Has(m | a, b)
  {
    OrKeepsClear(m, a, b);
  }

  lemma OrInRange(m: bv32, a: bv32)
    requires ElementBitsOnly(m)
    requires forall b: bv32 {:trigger Foreign(b)} :: Foreign(b) ==> a & b == 0
    ensures ElementBitsOnly(m | a)
  {
    forall b: bv32 | Foreign(b) ensures !Has(m | a, b) {
      ForeignBitStaysClear(m, a, b);
    }
  }

  lemma ElementBitsAreNotForeign(e: Element)
    ensures forall b: bv32 {:trigger Foreign(b)} :: Foreign(b) ==> Bit(e) & b == 0
  {
    forall b: bv32 | Foreign(b) ensures Bit(e) & b == 0 {
      ElementBitIsNotForeign(e, b);
    }
  }

  lemma ElementInRange(m: bv32, e: Element)
    requires ElementBitsOnly(m)
    ensures ElementBitsOnly(m | Bit(e))
  {
    ElementBitsAreNotForeign(e);
    OrInRange(m, Bit(e));
  }

  lemma MarkedInRange(m: bv32, source: Option<Element>)
    requires ElementBitsOnly(m)
    ensures ElementBitsOnly(m | SourceBit(source))
  {
    if source.Some? {
      ElementInRange(m, source.value);
    } else {
      NoBit(m);
    }
  }

  lemma UnmarkedInRange(m: bv32, a: bv32)
    requires ElementBitsOnly(m)
    ensures ElementBitsOnly(m & (0xFFFF_FFFF ^ a))
  {
    forall b: bv32 | Foreign(b) ensures !Has(m & (0xFFFF_FFFF ^ a), b) {
      AndNotKeepsClear(m, a, b);
    }
  }

  lemma NoElements(e: Element)
    ensures !Has(0, Bit(e))
  {
  }

  /** The elements a pipeline consists of. */
  function RequiredElements(useSrtp: bool): set<Element>
  {
    set e: Element | Required(useSrtp, e)
  }

  function SendingElements(): set<Element>
  {
    set e: Element | Sends(e)
  }

  /** A bitmap equals the mask of all elements exactly when it marks the elements the pipeline
      consists of and no other. */
  lemma FullMapIff(m: bv32, useSrtp: bool)
    requires ElementBitsOnly(m)
    ensures m == AllElements(useSrtp) <==> Elements(m) == RequiredElements(useSrtp)
  {
    forall e ensures Has(AllElements(useSrtp), Bit(e)) <==> Required(useSrtp, e) {
      AllMasks(useSrtp, e);
    }
    if Elements(m) == RequiredElements(useSrtp) {
      assert forall e :: Has(m, Bit(e)) <==> e in Elements(m);
      assert forall e :: Required(useSrtp, e) <==> e in RequiredElements(useSrtp);
      assert AllElements(useSrtp) & 0x3FFF == AllElements(useSrtp);
      NoForeignBits(m);
      SameElements(m, AllElements(useSrtp));
    }
  }

  lemma JoinSending(m: bv32)
    requires Has(m, 0x2) && Has(m, 0x8) && Has(m, 0x20) && Has(m, 0x100) && Has(m, 0x400) && Has(m, 0x1000)
    ensures m & 0x152A == 0x152A
  {
  }

  lemma SplitSending(m: bv32)
    requires m & 0x152A == 0x152A
    ensures Has(m, 0x2) && Has(m, 0x8) && Has(m, 0x20) && Has(m, 0x100) && Has(m, 0x400) && Has(m, 0x1000)
  {
  }

  lemma SendingTestIff(m: bv32)
    ensures m & EL_SENDING == EL_SENDING <==> SendingElements() <= Elements(m)
  {
    assert EL_SENDING == 0x152A;
    assert forall e :: Has(m, Bit(e)) <==> e in Elements(m);
    assert forall e :: Sends(e) <==> e in SendingElements();
    if m & 0x152A == 0x152A {
      SplitSending(m);
    }
    if SendingElements() <= Elements(m) {
      assert Has(m, Bit(RtpBin)) && Has(m, Bit(RtpSink)) && Has(m, Bit(RtcpSink));
      assert Has(m, Bit(AudioSrc)) && Has(m, Bit(Payloader)) && Has(m, Bit(Encoder));
      JoinSending(m);
    }
  }

  // ----- The pipeline, its maps seen as sets -----

  function Move(m: Maps, source: Option<Element>, s: GstState): Maps
  {
    var e := SetOf(source);
    match s
    case GstPlaying => Maps(m.playing + e, m.paused - e, m.stopped - e)
    case GstPaused => Maps(m.playing - e, m.paused + e, m.stopped - e)
    case GstNull => Maps(m.playing - e, m.paused - e, m.stopped + e)
    case GstReady => m
  }

  function Enter(p: Pipe, s: PipelineState): Pipe
  {
    if p.state == s then p else p.(state := s, emitted := false, log := p.log + [StateSet(s)])
  }

  function Check(p: Pipe): Pipe
  {
    var all := RequiredElements(p.useSrtp);
    if p.maps.playing == all then Enter(p, Playing)
    else if p.maps.paused == all then Enter(p, Paused)
    else if p.maps.stopped == all then Enter(p, Stopped)
    else if SendingElements() <= p.maps.playing && !p.emitted then
      p.(emitted := true, log := p.log + [SendingStarted])
    else p
  }

  datatype Input =
    | StateReport(source: Option<Element>, newState: GstState)
    | EndOfStream
    | SetCodec(codec: Codec, available: bool, setupOk: bool, linkOk: bool)
    | SetCrypto(own: Option<SdpCrypto.Attr>, theirs: Option<SdpCrypto.Attr>)
    | Start
    | Stop
    | Pause(pause: bool)

  predicate KeysFit(own: Option<SdpCrypto.Attr>, theirs: Option<SdpCrypto.Attr>)
  {
    own.Some? && theirs.Some? && own.value.suite == theirs.value.suite && own.value.tag == theirs.value.tag
  }

  function Halt(p: Pipe): Pipe
  {
    Enter(p, StopPending)
  }

  function Hold(p: Pipe, pause: bool): Pipe
  {
    if pause && (p.state.Paused? || p.state.PausePending?) then p
    else if !pause && (p.state.Playing? || p.state.PlayPending?) then p
    else if p.state.Playing? || p.state.PlayPending? || p.state.Paused? || p.state.PausePending? then
      Enter(p, if pause then PausePending else PlayPending)
    else p
  }

  function GiveCodec(p: Pipe, codec: Codec, available: bool, setupOk: bool, linkOk: bool): Pipe
  {
    if p.codec.Some? || !available then p
    else if !setupOk || !linkOk then Enter(p, Error)
    else Enter(p.(codec := Some(codec), log := p.log + [CodecSet(codec, p.useSrtp)]), Ready)
  }

  function GiveKeys(p: Pipe, own: Option<SdpCrypto.Attr>, theirs: Option<SdpCrypto.Attr>): Pipe
  {
    if !KeysFit(own, theirs) || p.useSrtp then p else p.(useSrtp := true, own := own, theirs := theirs)
  }

  function Begin(p: Pipe): Pipe
  {
    if !p.state.Ready? then p else Enter(p.(log := p.log + [Started]), PlayPending)
  }

  function Apply(p: Pipe, i: Input): Pipe
  {
    match i
    case StateReport(source, s) =>
      Check(p.(maps := Move(p.maps, source, s), log := p.log + [Report(source, s)]))
    case EndOfStream => Halt(p)
    case SetCodec(codec, available, setupOk, linkOk) => GiveCodec(p, codec, available, setupOk, linkOk)
    case SetCrypto(own, theirs) => GiveKeys(p, own, theirs)
    case Start => Begin(p)
    case Stop => Halt(p)
    case Pause(pause) => Hold(p, pause)
  }

  function Constructed(initOk: bool): Pipe
  {
    var s := if initOk then NeedCodec else Error;
    Pipe(s, Maps({}, {}, {}), false, None, false, None, None, [StateSet(Initializing), StateSet(s)])
  }

  function Run(p: Pipe, inputs: seq<Input>): Pipe
    decreases |inputs|
  {
    if inputs == [] then p else Run(Apply(p, inputs[0]), inputs[1..])
  }

  // ----- The maps refine the last reports -----

  /** The last PLAYING, PAUSED or NULL an element reported. */
  ghost function LastReport(log: seq<Entry>, e: Element): Option<GstState>
  {
    if log == [] then None
    else
      match log[|log| - 1]
      case Report(source, s) =>
        if source == Some(e) && !s.GstReady? then Some(s) else LastReport(log[..|log| - 1], e)
      case _ => LastReport(log[..|log| - 1], e)
  }

  ghost predicate Tracks(marked: set<Element>, log: seq<Entry>, s: GstState)
  {
    forall e :: e in marked <==> LastReport(log, e) == Some(s)
  }

  ghost predicate MapsMean(m: Maps, log: seq<Entry>)
  {
    Tracks(m.playing, log, GstPlaying) && Tracks(m.paused, log, GstPaused) && Tracks(m.stopped, log, GstNull)
  }

  lemma ReportMovesMaps(m: Maps, log: seq<Entry>, source: Option<Element>, s: GstState)
    requires MapsMean(m, log)
    ensures MapsMean(Move(m, source, s), log + [Report(source, s)])
  {
    assert (log + [Report(source, s)])[..|log + [Report(source, s)]| - 1] == log;
  }

  lemma OtherEntryKeepsMaps(m: Maps, log: seq<Entry>, entry: Entry)
    requires MapsMean(m, log) && !entry.Report?
    ensures MapsMean(m, log + [entry])
  {
    assert (log + [entry])[..|log + [entry]| - 1] == log;
  }

  lemma EnterKeepsMaps(p: Pipe, s: PipelineState)
    requires MapsMean(p.maps, p.log)
    ensures MapsMean(Enter(p, s).maps, Enter(p, s).log)
  {
    OtherEntryKeepsMaps(p.maps, p.log, StateSet(s));
  }

  lemma StepKeepsMaps(p: Pipe, i: Input)
    requires MapsMean(p.maps, p.log)
    ensures MapsMean(Apply(p, i).maps, Apply(p, i).log)
  {
    match i
    case StateReport(source, s) =>
      var q := p.(maps := Move(p.maps, source, s), log := p.log + [Report(source, s)]);
      ReportMovesMaps(p.maps, p.log, source, s);
      EnterKeepsMaps(q, Playing);
      EnterKeepsMaps(q, Paused);
      EnterKeepsMaps(q, Stopped);
      OtherEntryKeepsMaps(q.maps, q.log, SendingStarted);
    case EndOfStream => EnterKeepsMaps(p, StopPending);
    case SetCodec(codec, _, _, _) =>
      EnterKeepsMaps(p, Error);
      OtherEntryKeepsMaps(p.maps, p.log, CodecSet(codec, p.useSrtp));
      EnterKeepsMaps(p.(codec := Some(codec), log := p.log + [CodecSet(codec, p.useSrtp)]), Ready);
    case SetCrypto(_, _) =>
    case Start =>
      OtherEntryKeepsMaps(p.maps, p.log, Started);
      EnterKeepsMaps(p.(log := p.log + [Started]), PlayPending);
    case Stop => EnterKeepsMaps(p, StopPending);
    case Pause(_) =>
      EnterKeepsMaps(p, PausePending);
      EnterKeepsMaps(p, PlayPending);
  }

  /** After every run an element is marked playing, paused or stopped exactly when that is what it
      last reported; so the maps are pairwise disjoint and at most one of the three tests can hold. */
  lemma {:induction false} MapsRefineReports(p: Pipe, inputs: seq<Input>)
    requires MapsMean(p.maps, p.log)
    ensures var q := Run(p, inputs);
            && MapsMean(q.maps, q.log)
            && q.maps.playing !! q.maps.paused !! q.maps.stopped
    decreases |inputs|
  {
    if inputs != [] {
      StepKeepsMaps(p, inputs[0]);
      MapsRefineReports(Apply(p, inputs[0]), inputs[1..]);
    } else {
      assert forall e :: e in p.maps.playing <==> LastReport(p.log, e) == Some(GstPlaying);
    }
  }

  /** Hence at most one of the three "all elements" tests can hold. */
  lemma TestsExclude(m: Maps, log: seq<Entry>, useSrtp: bool)
    requires MapsMean(m, log)
    ensures var all := RequiredElements(useSrtp);
            && !(m.playing == all && m.paused == all)
            && !(m.playing == all && m.stopped == all)
            && !(m.paused == all && m.stopped == all)
  {
    assert Pipeline in RequiredElements(useSrtp);
    assert Pipeline in m.playing <==> LastReport(log, Pipeline) == Some(GstPlaying);
    assert Pipeline in m.paused <==> LastReport(log, Pipeline) == Some(GstPaused);
    assert Pipeline in m.stopped <==> LastReport(log, Pipeline) == Some(GstNull);
  }

  /** A report takes the pipeline into the playing state exactly when the elements that last reported
      playing are those the pipeline consists of. */
  lemma PlayingIff(p: Pipe, source: Option<Element>, s: GstState)
    requires MapsMean(p.maps, p.log) && !p.state.Playing?
    ensures var q := Apply(p, StateReport(source, s));
            q.state.Playing? <==>
            forall e :: LastReport(p.log + [Report(source, s)], e) == Some(GstPlaying) <==> Required(p.useSrtp, e)
  {
    ReportMovesMaps(p.maps, p.log, source, s);
    var now := Move(p.maps, source, s).playing;
    var all := RequiredElements(p.useSrtp);
    assert forall e :: Required(p.useSrtp, e) <==> e in all;
    if forall e :: LastReport(p.log + [Report(source, s)], e) == Some(GstPlaying) <==> Required(p.useSrtp, e) {
      assert forall e :: e in now <==> e in all;
      assert now == all;
    }
  }

  /** Exactly the elements the pipeline consists of last reported this state. */
  ghost predicate AllLast(log: seq<Entry>, useSrtp: bool, s: GstState)
  {
    forall e :: LastReport(log, e) == Some(s) <==> Required(useSrtp, e)
  }

  /** Every element that sends last reported playing. */
  ghost predicate SendersPlay(log: seq<Entry>)
  {
    forall e <- [AudioSrc, Encoder, Payloader, RtpBin, RtpSink, RtcpSink] :: LastReport(log, e) == Some(GstPlaying)
  }

  lemma TrackedTest(marked: set<Element>, log: seq<Entry>, useSrtp: bool, s: GstState)
    requires Tracks(marked, log, s)
    ensures marked == RequiredElements(useSrtp) <==> AllLast(log, useSrtp, s)
  {
    var all := RequiredElements(useSrtp);
    assert forall e :: Required(useSrtp, e) <==> e in all;
    if AllLast(log, useSrtp, s) {
      assert forall e :: e in marked <==> e in all;
    }
  }

  lemma TrackedSenders(playing: set<Element>, log: seq<Entry>)
    requires Tracks(playing, log, GstPlaying)
    ensures SendingElements() <= playing <==> SendersPlay(log)
  {
    var senders := [AudioSrc, Encoder, Payloader, RtpBin, RtpSink, RtcpSink];
    assert senders[0] == AudioSrc && senders[1] == Encoder && senders[2] == Payloader;
    assert senders[3] == RtpBin && senders[4] == RtpSink && senders[5] == RtcpSink;
    assert forall e :: Sends(e) <==> e in senders;
    assert forall e :: e in SendingElements() <==> e in senders;
  }

  /** What a report leads to, in terms of what the elements last reported: the state all elements agree on; and
      if they agree on none, the sending signal, once all senders play and unless it was emitted already. */
  lemma ReportMeans(p: Pipe, source: Option<Element>, s: GstState)
    requires MapsMean(p.maps, p.log)
    ensures var q := Apply(p, StateReport(source, s));
            var log := p.log + [Report(source, s)];
            var playing, paused := AllLast(log, p.useSrtp, GstPlaying), AllLast(log, p.useSrtp, GstPaused);
            var agreed := playing || paused || AllLast(log, p.useSrtp, GstNull);
            var signal := !agreed && SendersPlay(log) && !p.emitted;
            && q.state == (if playing then Playing else if paused then Paused else if agreed then Stopped else p.state)
            && q.log == log + (if q.state != p.state then [StateSet(q.state)]
                               else if signal then [SendingStarted] else [])
            && (q.emitted <==> q.state == p.state && (p.emitted || signal))
            && q.(state := p.state, maps := p.maps, emitted := p.emitted, log := p.log) == p
  {
    var log := p.log + [Report(source, s)];
    var now := Move(p.maps, source, s);
    ReportMovesMaps(p.maps, p.log, source, s);
    TrackedTest(now.playing, log, p.useSrtp, GstPlaying);
    TrackedTest(now.paused, log, p.useSrtp, GstPaused);
    TrackedTest(now.stopped, log, p.useSrtp, GstNull);
    TrackedSenders(now.playing, log);
    assert log + [] == log;
  }

  // ----- What the commands lead to -----

  /** Entering a state is logged, and arms the sending signal, unless the pipeline is in it. */
  ghost predicate Entered(p: Pipe, q: Pipe, s: PipelineState)
  {
    if p.state == s then q == p else q == p.(state := s, emitted := false, log := p.log + [StateSet(s)])
  }

  /** The first codec that is available makes the pipeline ready, with the keys it has then, or puts it into the
      error state if it cannot be set up or linked; another codec, or one that is not available, changes
      nothing. The first keys of one suite and one tag are taken, and no others. */
  lemma GivingMeans(p: Pipe, codec: Codec, setupOk: bool, linkOk: bool, available: bool,
                    own: SdpCrypto.Attr, theirs: SdpCrypto.Attr)
    requires LifeCycle(p)
    ensures var q := Apply(p, SetCodec(codec, available, setupOk, linkOk));
            if p.codec != None || !available then q == p
            else if setupOk && linkOk then
              && q.codec == Some(codec) && q.state == Ready
              && (p.state != Ready ==> q.log == p.log + [CodecSet(codec, p.useSrtp), StateSet(Ready)])
              && q.(codec := None, state := p.state, emitted := p.emitted, log := p.log) == p
            else Entered(p, q, Error)
    ensures Apply(p, SetCrypto(Some(own), Some(theirs)))
         == if own.suite == theirs.suite && own.tag == theirs.tag && !p.useSrtp then
              p.(useSrtp := true, own := Some(own), theirs := Some(theirs))
            else p
    ensures Apply(p, SetCrypto(Some(own), None)) == Apply(p, SetCrypto(None, Some(theirs))) == p
  {
    assert (p.log + [CodecSet(codec, p.useSrtp)]) + [StateSet(Ready)]
        == p.log + [CodecSet(codec, p.useSrtp), StateSet(Ready)];
  }

  /** A ready pipeline starts, one that plays or is about to can be paused, one that is paused or is about to be
      can be resumed, and any can be stopped. In every other state the command changes nothing. */
  lemma CommandsMean(p: Pipe)
    ensures Apply(p, Start) == if p.state == Ready then
              p.(state := PlayPending, emitted := false, log := p.log + [Started, StateSet(PlayPending)]) else p
    ensures if p.state == Playing || p.state == PlayPending then Entered(p, Apply(p, Pause(true)), PausePending)
            else Apply(p, Pause(true)) == p
    ensures if p.state == Paused || p.state == PausePending then Entered(p, Apply(p, Pause(false)), PlayPending)
            else Apply(p, Pause(false)) == p
    ensures Entered(p, Apply(p, Stop), StopPending) && Entered(p, Apply(p, EndOfStream), StopPending)
  {
    assert (p.log + [Started]) + [StateSet(PlayPending)] == p.log + [Started, StateSet(PlayPending)];
  }

  function Reports(order: seq<Element>, s: GstState): (inputs: seq<Input>)
    ensures |inputs| == |order| && forall k :: 0 <= k < |order| ==> inputs[k] == StateReport(Some(order[k]), s)
  {
    seq(|order|, k requires 0 <= k < |order| => StateReport(Some(order[k]), s))
  }

  /** What the elements mark for a state, and where the pipeline is once all of them do. */
  function Marked(m: Maps, s: GstState): set<Element>
    requires !s.GstReady?
  {
    match s
    case GstPlaying => m.playing
    case GstPaused => m.paused
    case GstNull => m.stopped
  }

  lemma ReportMarks(p: Pipe, e: Element, s: GstState)
    requires !s.GstReady?
    ensures var q := Apply(p, StateReport(Some(e), s));
            && Marked(q.maps, s) == Marked(p.maps, s) + {e} && q.useSrtp == p.useSrtp
            && (s != GstPlaying ==> q.maps.playing == p.maps.playing - {e})
            && (s != GstPaused ==> q.maps.paused == p.maps.paused - {e})
  {
  }

  /** However the reports of its elements are ordered, and whatever they reported before, a pipeline arrives:
      once all the elements it consists of have reported playing, paused or stopped, so is it. */
  lemma {:induction false} PipelineArrives(p: Pipe, order: seq<Element>, s: GstState)
    requires !s.GstReady? && order != [] && Marked(p.maps, s) <= RequiredElements(p.useSrtp)
    requires Marked(p.maps, s) + (set e | e in order) == RequiredElements(p.useSrtp)
    ensures Run(p, Reports(order, s)).state
         == match s { case GstPlaying => Playing case GstPaused => Paused case _ => Stopped }
    decreases |order|
  {
    var e, rest := order[0], order[1..];
    var q := Apply(p, StateReport(Some(e), s));
    var all := RequiredElements(p.useSrtp);
    assert e in order && e in all;
    ReportMarks(p, e, s);
    assert Reports(order, s)[0] == StateReport(Some(e), s) && Reports(order, s)[1..] == Reports(rest, s);
    assert forall f :: f in order <==> f == e || f in rest;
    if rest == [] {
      assert Marked(q.maps, s) == all;
      assert Run(q, Reports(rest, s)) == q;
    } else {
      PipelineArrives(q, rest, s);
    }
  }

  // ----- The life cycle -----

  /** What a log amounts to. `sendings` counts since the last state change; `doubled` says that some
      stretch between two state changes had two of them. */
  datatype Tally = Tally(codecs: nat, readies: nat, starts: nat, sendings: nat, doubled: bool, codecSrtp: bool)

  function Note(t: Tally, entry: Entry): Tally
  {
    match entry
    case Report(_, _) => t
    case StateSet(s) => t.(sendings := 0, readies := if s.Ready? then t.readies + 1 else t.readies)
    case SendingStarted => t.(sendings := t.sendings + 1, doubled := t.doubled || t.sendings > 0)
    case CodecSet(_, srtp) => t.(codecs := t.codecs + 1, codecSrtp := srtp)
    case Started => t.(starts := t.starts + 1)
  }

  function Summary(log: seq<Entry>): Tally
  {
    if log == [] then Tally(0, 0, 0, 0, false, false) else Note(Summary(log[..|log| - 1]), log[|log| - 1])
  }

  lemma SummaryOfMore(log: seq<Entry>, entry: Entry)
    ensures Summary(log + [entry]) == Note(Summary(log), entry)
  {
    assert (log + [entry])[..|log + [entry]| - 1] == log;
  }

  /** Codec, readiness and start each happen at most once and in that order; the flag that guards the
      sending signal says what has been emitted since the state last changed. */
  ghost predicate LifeCycle(p: Pipe)
  {
    var t := Summary(p.log);
    && t.codecs == t.readies == (if p.codec.Some? then 1 else 0)
    && t.starts + (if p.state.Ready? then 1 else 0) <= t.readies
    && t.sendings == (if p.emitted then 1 else 0)
    && !t.doubled
    && (p.codec.Some? && t.codecSrtp ==> p.useSrtp)
    && (p.useSrtp ==> KeysFit(p.own, p.theirs))
  }

  lemma EnterKeepsLifeCycle(p: Pipe, s: PipelineState)
    requires LifeCycle(p) && !s.Ready?
    ensures LifeCycle(Enter(p, s))
  {
    SummaryOfMore(p.log, StateSet(s));
  }

  lemma CodecAccepted(p: Pipe, codec: Codec)
    requires LifeCycle(p) && p.codec.None?
    ensures LifeCycle(GiveCodec(p, codec, true, true, true))
  {
    var t := Summary(p.log);
    var set_ := p.log + [CodecSet(codec, p.useSrtp)];
    SummaryOfMore(p.log, CodecSet(codec, p.useSrtp));
    SummaryOfMore(set_, StateSet(Ready));
    assert Summary(set_ + [StateSet(Ready)]) == Tally(1, 1, 0, 0, false, p.useSrtp);
    assert GiveCodec(p, codec, true, true, true)
        == p.(codec := Some(codec), state := Ready, emitted := false, log := set_ + [StateSet(Ready)]);
  }

  lemma CodecKeepsLifeCycle(p: Pipe, codec: Codec, available: bool, setupOk: bool, linkOk: bool)
    requires LifeCycle(p)
    ensures LifeCycle(GiveCodec(p, codec, available, setupOk, linkOk))
  {
    if p.codec.None? && available {
      if setupOk && linkOk {
        CodecAccepted(p, codec);
      } else {
        EnterKeepsLifeCycle(p, Error);
      }
    }
  }

  lemma StartKeepsLifeCycle(p: Pipe)
    requires LifeCycle(p)
    ensures LifeCycle(Begin(p))
  {
    SummaryOfMore(p.log, Started);
    SummaryOfMore(p.log + [Started], StateSet(PlayPending));
  }

  lemma ReportKeepsLifeCycle(p: Pipe, source: Option<Element>, s: GstState)
    requires LifeCycle(p)
    ensures LifeCycle(Apply(p, StateReport(source, s)))
  {
    var q := p.(maps := Move(p.maps, source, s), log := p.log + [Report(source, s)]);
    SummaryOfMore(p.log, Report(source, s));
    CheckKeepsLifeCycle(q);
  }

  lemma CheckKeepsLifeCycle(p: Pipe)
    requires LifeCycle(p)
    ensures LifeCycle(Check(p))
  {
    var all := RequiredElements(p.useSrtp);
    if p.maps.playing == all {
      EnterKeepsLifeCycle(p, Playing);
    } else if p.maps.paused == all {
      EnterKeepsLifeCycle(p, Paused);
    } else if p.maps.stopped == all {
      EnterKeepsLifeCycle(p, Stopped);
    } else if SendingElements() <= p.maps.playing && !p.emitted {
      EmitKeepsLifeCycle(p);
    }
  }

  lemma EmitKeepsLifeCycle(p: Pipe)
    requires LifeCycle(p) && !p.emitted
    ensures LifeCycle(p.(emitted := true, log := p.log + [SendingStarted]))
  {
    SummaryOfMore(p.log, SendingStarted);
  }

  /** A codec or keys that were given stay. */
  lemma GivenStays(p: Pipe, i: Input)
    ensures p.codec.Some? ==> Apply(p, i).codec == p.codec
    ensures p.useSrtp ==> Apply(p, i).useSrtp && Apply(p, i).own == p.own && Apply(p, i).theirs == p.theirs
  {
  }

  lemma KeysKeepLifeCycle(p: Pipe, own: Option<SdpCrypto.Attr>, theirs: Option<SdpCrypto.Attr>)
    requires LifeCycle(p)
    ensures LifeCycle(GiveKeys(p, own, theirs))
  {
  }

  lemma HoldKeepsLifeCycle(p: Pipe, pause: bool)
    requires LifeCycle(p)
    ensures LifeCycle(Hold(p, pause))
  {
    EnterKeepsLifeCycle(p, if pause then PausePending else PlayPending);
  }

  lemma StepKeepsLifeCycle(p: Pipe, i: Input)
    requires LifeCycle(p)
    ensures LifeCycle(Apply(p, i))
    ensures p.codec.Some? ==> Apply(p, i).codec == p.codec
    ensures p.useSrtp ==> Apply(p, i).useSrtp && Apply(p, i).own == p.own && Apply(p, i).theirs == p.theirs
  {
    GivenStays(p, i);
    match i
    case StateReport(source, s) => ReportKeepsLifeCycle(p, source, s);
    case EndOfStream => EnterKeepsLifeCycle(p, StopPending);
    case SetCodec(codec, available, setupOk, linkOk) => CodecKeepsLifeCycle(p, codec, available, setupOk, linkOk);
    case SetCrypto(own, theirs) => KeysKeepLifeCycle(p, own, theirs);
    case Start => StartKeepsLifeCycle(p);
    case Stop => EnterKeepsLifeCycle(p, StopPending);
    case Pause(pause) => HoldKeepsLifeCycle(p, pause);
  }

  lemma ConstructedIsSound(initOk: bool)
    ensures LifeCycle(Constructed(initOk)) && MapsMean(Constructed(initOk).maps, Constructed(initOk).log)
    ensures SendingsJustified(Constructed(initOk).log)
    ensures initOk ==> Constructed(initOk).state == NeedCodec
    ensures !initOk ==> Constructed(initOk).state == Error
    ensures Constructed(initOk).codec == None && !Constructed(initOk).useSrtp
  {
    var log := Constructed(initOk).log;
    assert log[..1] == [StateSet(Initializing)] && log[..1][..0] == [];
    assert Summary(log[..1]) == Note(Summary([]), StateSet(Initializing));
    assert forall e :: LastReport(log[..1], e) == None;
  }

  /** Over every run: the codec is set at most once and stays, the ready state is entered at most
      once, starting takes effect at most once, and a codec that was set up for SRTP belongs to a
      pipeline with keys of one suite and one tag. */
  lemma {:induction false} LifeCycleOverRuns(p: Pipe, inputs: seq<Input>)
    requires LifeCycle(p)
    ensures var q := Run(p, inputs);
            && LifeCycle(q)
            && Summary(q.log).codecs <= 1 && Summary(q.log).readies <= 1 && Summary(q.log).starts <= 1
            && (p.codec.Some? ==> q.codec == p.codec)
    decreases |inputs|
  {
    if inputs != [] {
      StepKeepsLifeCycle(p, inputs[0]);
      LifeCycleOverRuns(Apply(p, inputs[0]), inputs[1..]);
    }
  }

  /** Two sending signals are always separated by a state change. */
  ghost predicate SendingsSeparated(log: seq<Entry>)
  {
    forall i, j :: 0 <= i < j < |log| && log[i].SendingStarted? && log[j].SendingStarted? ==>
      exists k :: i < k < j && log[k].StateSet?
  }

  lemma {:induction false} SinceLastChange(log: seq<Entry>, i: nat)
    requires i < |log| && log[i].SendingStarted? && Summary(log).sendings == 0
    ensures exists k :: i < k < |log| && log[k].StateSet?
  {
    var n := |log| - 1;
    if i < n && !log[n].StateSet? {
      SinceLastChange(log[..n], i);
      var k :| i < k < n && log[..n][k].StateSet?;
      assert log[k].StateSet?;
    }
  }

  lemma {:induction false} NotDoubledMeansSeparated(log: seq<Entry>)
    requires !Summary(log).doubled
    ensures SendingsSeparated(log)
  {
    if log != [] {
      var n := |log| - 1;
      NotDoubledMeansSeparated(log[..n]);
      forall i, j | 0 <= i < j < |log| && log[i].SendingStarted? && log[j].SendingStarted?
        ensures exists k :: i < k < j && log[k].StateSet?
      {
        if j < n {
          assert log[..n][i].SendingStarted? && log[..n][j].SendingStarted?;
          var k :| i < k < j && log[..n][k].StateSet?;
          assert log[k].StateSet?;
        } else {
          SinceLastChange(log[..n], i);
          var k :| i < k < n && log[..n][k].StateSet?;
          assert log[k].StateSet?;
        }
      }
    }
  }

  /** Whenever the sending signal was emitted, every sending element had last reported playing. */
  ghost predicate SendingsJustified(log: seq<Entry>)
  {
    forall i, e :: 0 <= i < |log| && log[i].SendingStarted? && Sends(e) ==> LastReport(log[..i], e) == Some(GstPlaying)
  }

  lemma MoreJustified(log: seq<Entry>, entry: Entry)
    requires SendingsJustified(log)
    requires entry.SendingStarted? ==> forall e :: Sends(e) ==> LastReport(log, e) == Some(GstPlaying)
    ensures SendingsJustified(log + [entry])
  {
    var log' := log + [entry];
    forall i, e | 0 <= i < |log'| && log'[i].SendingStarted? && Sends(e)
      ensures LastReport(log'[..i], e) == Some(GstPlaying)
    {
      if i < |log| {
        assert log'[..i] == log[..i];
      } else {
        assert log'[..i] == log;
      }
    }
  }

  lemma EnterJustified(p: Pipe, s: PipelineState)
    requires SendingsJustified(p.log)
    ensures SendingsJustified(Enter(p, s).log)
  {
    MoreJustified(p.log, StateSet(s));
  }

  lemma StepJustified(p: Pipe, i: Input)
    requires MapsMean(p.maps, p.log) && SendingsJustified(p.log)
    ensures SendingsJustified(Apply(p, i).log)
  {
    match i
    case StateReport(source, s) =>
      var q := p.(maps := Move(p.maps, source, s), log := p.log + [Report(source, s)]);
      ReportMovesMaps(p.maps, p.log, source, s);
      MoreJustified(p.log, Report(source, s));
      EnterJustified(q, Playing);
      EnterJustified(q, Paused);
      EnterJustified(q, Stopped);
      if SendingElements() <= q.maps.playing {
        forall e | Sends(e) ensures LastReport(q.log, e) == Some(GstPlaying) {
          assert e in SendingElements();
        }
        MoreJustified(q.log, SendingStarted);
      }
    case EndOfStream => EnterJustified(p, StopPending);
    case SetCodec(codec, _, _, _) =>
      EnterJustified(p, Error);
      MoreJustified(p.log, CodecSet(codec, p.useSrtp));
      EnterJustified(p.(codec := Some(codec), log := p.log + [CodecSet(codec, p.useSrtp)]), Ready);
    case SetCrypto(_, _) =>
    case Start =>
      MoreJustified(p.log, Started);
      EnterJustified(p.(log := p.log + [Started]), PlayPending);
    case Stop => EnterJustified(p, StopPending);
    case Pause(_) =>
      EnterJustified(p, PausePending);
      EnterJustified(p, PlayPending);
  }

  /** Over every run the sending signal is emitted at most once between two state changes, and only
      while all sending elements are playing. */
  lemma {:induction false} SendingSignal(p: Pipe, inputs: seq<Input>)
    requires LifeCycle(p) && MapsMean(p.maps, p.log) && SendingsJustified(p.log)
    ensures SendingsSeparated(Run(p, inputs).log) && SendingsJustified(Run(p, inputs).log)
    decreases |inputs|
  {
    if inputs != [] {
      StepKeepsLifeCycle(p, inputs[0]);
      StepKeepsMaps(p, inputs[0]);
      StepJustified(p, inputs[0]);
      SendingSignal(Apply(p, inputs[0]), inputs[1..]);
    } else {
      NotDoubledMeansSeparated(p.log);
    }
  }

  ghost predicate Sound(p: Pipe)
  {
    LifeCycle(p) && MapsMean(p.maps, p.log) && SendingsJustified(p.log)
  }

  lemma StepIsSound(p: Pipe, i: Input)
    requires Sound(p)
    ensures Sound(Apply(p, i))
  {
    StepKeepsLifeCycle(p, i);
    StepKeepsMaps(p, i);
    StepJustified(p, i);
  }

  // ----- The pipeline object -----

  class SipMediaPipeline {
    var codec: Option<Codec>
    var state: PipelineState
    var elementMapPlaying: bv32
    var elementMapPaused: bv32
    var elementMapStopped: bv32
    var emittedSendingSignal: bool
    var useSrtp: bool
    var cryptoOwn: Option<SdpCrypto.Attr>
    var cryptoTheirs: Option<SdpCrypto.Attr>
    ghost var log: seq<Entry>

    ghost function View(): Pipe
      reads this
    {
      Pipe(state, Maps(Elements(elementMapPlaying), Elements(elementMapPaused), Elements(elementMapStopped)),
           emittedSendingSignal, codec, useSrtp, cryptoOwn, cryptoTheirs, log)
    }

    ghost predicate WordsInRange()
      reads this`elementMapPlaying, this`elementMapPaused, this`elementMapStopped
    {
      ElementBitsOnly(elementMapPlaying) && ElementBitsOnly(elementMapPaused) && ElementBitsOnly(elementMapStopped)
    }

    ghost predicate Valid()
      reads this
    {
      && WordsInRange()
      && Sound(View())
    }

    constructor (initOk: bool)
      ensures Valid() && View() == Constructed(initOk)
    {
      codec, emittedSendingSignal, useSrtp, cryptoOwn, cryptoTheirs := None, false, false, None, None;
      elementMapPlaying, elementMapPaused, elementMapStopped := 0, 0, 0;
      state := if initOk then NeedCodec else Error;
      log := [StateSet(Initializing), StateSet(if initOk then NeedCodec else Error)];
      new;
      assert ElementBitsOnly(0);
      assert Elements(0) == {} by {
        forall e ensures !Has(0, Bit(e)) {
          NoElements(e);
        }
      }
      ConstructedIsSound(initOk);
    }

    /** `map | id`: marks the element whose bit is `id`, or nothing for 0. */
    static method Mark(m: bv32, id: bv32, ghost source: Option<Element>) returns (r: bv32)
      requires ElementBitsOnly(m) && id == SourceBit(source)
      ensures ElementBitsOnly(r) && Elements(r) == Elements(m) + SetOf(source)
    {
      MarkedElements(m, source);
      MarkedInRange(m, source);
      r := m | id;
    }

    /** `map & (G_MAXUINT ^ id)`: the complement mask clears the element's bit. */
    static method Unmark(m: bv32, id: bv32, ghost source: Option<Element>) returns (r: bv32)
      requires ElementBitsOnly(m) && id == SourceBit(source)
      ensures ElementBitsOnly(r) && Elements(r) == Elements(m) - SetOf(source)
    {
      UnmarkedElements(m, source);
      UnmarkedInRange(m, id);
      r := m & (0xFFFF_FFFF ^ id);
    }

    static method AllMarked(m: bv32, useSrtp: bool) returns (all: bool)
      requires ElementBitsOnly(m)
      ensures all <==> Elements(m) == RequiredElements(useSrtp)
    {
      FullMapIff(m, useSrtp);
      all := m == AllElements(useSrtp);
    }

    static method SendersMarked(m: bv32) returns (sending: bool)
      ensures sending <==> SendingElements() <= Elements(m)
    {
      SendingTestIff(m);
      sending := m & EL_SENDING == EL_SENDING;
    }

    method SetState(s: PipelineState)
      modifies this`state, this`emittedSendingSignal, this`log
      ensures View() == Enter(old(View()), s)
    {
      if state == s {
        return;
      }
      state := s;
      log := log + [StateSet(s)];
      emittedSendingSignal := false;
    }

    method CheckElementMaps()
      requires WordsInRange()
      modifies this`state, this`emittedSendingSignal, this`log
      ensures View() == Check(old(View()))
    {
      var allPlaying := AllMarked(elementMapPlaying, useSrtp);
      if allPlaying {
        SetState(Playing);
        return;
      }
      var allPaused := AllMarked(elementMapPaused, useSrtp);
      if allPaused {
        SetState(Paused);
        return;
      }
      var allStopped := AllMarked(elementMapStopped, useSrtp);
      if allStopped {
        SetState(Stopped);
        return;
      }
      var sending := SendersMarked(elementMapPlaying);
      if sending && !emittedSendingSignal {
        log := log + [SendingStarted];
        emittedSendingSignal := true;
      }
    }

    method OnStateChanged(source: Option<Element>, newState: GstState)
      requires Valid()
      modifies this
      ensures Valid() && View() == Apply(old(View()), StateReport(source, newState))
    {
      ghost var before := View();
      StepIsSound(before, StateReport(source, newState));
      log := log + [Report(source, newState)];
      MoveMaps(source, newState);
      CheckElementMaps();
    }

    method OnEndOfStream()
      requires Valid()
      modifies this`state, this`emittedSendingSignal, this`log
      ensures Valid() && View() == Apply(old(View()), EndOfStream)
    {
      DoStop();
    }

    method DoSetCodec(newCodec: Codec, available: bool, setupOk: bool, linkOk: bool)
      requires Valid()
      modifies this`codec, this`state, this`emittedSendingSignal, this`log
      ensures Valid() && View() == Apply(old(View()), SetCodec(newCodec, available, setupOk, linkOk))
    {
      StepIsSound(View(), SetCodec(newCodec, available, setupOk, linkOk));
      if codec == Some(newCodec) {
        return;
      }
      if codec.Some? {
        return;
      }
      if !available {
        return;
      }
      if !setupOk {
        SetState(Error);
        return;
      }
      if !linkOk {
        SetState(Error);
        return;
      }
      codec := Some(newCodec);
      log := log + [CodecSet(newCodec, useSrtp)];
      SetState(Ready);
    }

    method DoSetCrypto(own: Option<SdpCrypto.Attr>, theirs: Option<SdpCrypto.Attr>)
      requires Valid()
      modifies this`useSrtp, this`cryptoOwn, this`cryptoTheirs
      ensures Valid() && View() == Apply(old(View()), SetCrypto(own, theirs))
    {
      StepIsSound(View(), SetCrypto(own, theirs));
      if own.None? || theirs.None? || own.value.suite != theirs.value.suite || own.value.tag != theirs.value.tag {
        return;
      }
      if useSrtp {
        return;
      }
      useSrtp := true;
      cryptoOwn := own;
      cryptoTheirs := theirs;
    }

    method DoStart()
      requires Valid()
      modifies this`state, this`emittedSendingSignal, this`log
      ensures Valid() && View() == Apply(old(View()), Start)
    {
      StepIsSound(View(), Start);
      if state != Ready {
        return;
      }
      log := log + [Started];
      SetState(PlayPending);
    }

    method DoStop()
      requires Valid()
      modifies this`state, this`emittedSendingSignal, this`log
      ensures Valid() && View() == Apply(old(View()), Stop)
    {
      StepIsSound(View(), Stop);
      SetState(StopPending);
    }

    method DoPause(pause: bool)
      requires Valid()
      modifies this`state, this`emittedSendingSignal, this`log
      ensures Valid() && View() == Apply(old(View()), Pause(pause))
    {
      StepIsSound(View(), Pause(pause));
      if pause && (state == Paused || state == PausePending) {
        return;
      }
      if !pause && (state == Playing || state == PlayPending) {
        return;
      }
      if state != Playing && state != PlayPending && state != Paused && state != PausePending {
        return;
      }
      SetState(if pause then PausePending else PlayPending);
    }

    method MoveMaps(source: Option<Element>, newState: GstState)
      requires WordsInRange()
      modifies this`elementMapPlaying, this`elementMapPaused, this`elementMapStopped
      ensures WordsInRange()
      ensures View() == old(View()).(maps := Move(old(View()).maps, source, newState))
    {
      var elementId := SourceBit(source);
      if newState == GstPlaying {
        elementMapPlaying := Mark(elementMapPlaying, elementId, source);
        elementMapPaused := Unmark(elementMapPaused, elementId, source);
        elementMapStopped := Unmark(elementMapStopped, elementId, source);
      } else if newState == GstPaused {
        elementMapPaused := Mark(elementMapPaused, elementId, source);
        elementMapPlaying := Unmark(elementMapPlaying, elementId, source);
        elementMapStopped := Unmark(elementMapStopped, elementId, source);
      } else if newState == GstNull {
        elementMapStopped := Mark(elementMapStopped, elementId, source);
        elementMapPlaying := Unmark(elementMapPlaying, elementId, source);
        elementMapPaused := Unmark(elementMapPaused, elementId, source);
      }
    }
  }
}
