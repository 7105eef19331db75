/** The key exchange of one media line by offer and answer (sections 5.1.1 to 5.1.3 of RFC 4568):
    a crypto context collects the local and the remote crypto attributes and settles on one tag. */
module SdpCrypto {
  import opened CallStates
  import Decimal

  datatype Suite =
    | UnknownSuite
    | Aes128Sha32 | Aes128Sha80 | Aes192Sha32 | Aes192Sha80 | Aes256Sha32 | Aes256Sha80
    | F8128Sha32 | Aead128Gcm | Aead256Gcm

  datatype Attr = Attr(
    tag: int,
    suite: Suite,
    key: string,
    unencryptedSrtp: bool,
    unauthenticatedSrtp: bool,
    unencryptedSrtcp: bool)

  datatype ContextState = Init | OfferLocal | OfferRemote | NegotiationFailed | NegotiationSuccess

  /** `notices` lists the states announced through the property notification. */
  datatype Context = Context(
    state: ContextState,
    local: seq<Attr>,
    remote: seq<Attr>,
    tag: int,
    notices: seq<ContextState>)

  datatype MediaAttribute = MediaAttribute(name: string, value: string)

  /** Parsing and printing of one crypto line, and which keys fit a suite. */
  datatype LineCodec = LineCodec(
    parse: string -> Option<Attr>,
    render: Attr -> string,
    keyFits: (Suite, string) -> bool)

  const CRYPTO_PREFIX := "a=crypto:"

  predicate ValidTag(tag: int)
  {
    0 < tag < 1000000000
  }

  predicate ParsedSuite(s: Suite)
  {
    s.Aes128Sha32? || s.Aes128Sha80? || s.Aes256Sha32? || s.Aes256Sha80?
  }

  /** Without session parameters: the line parser reads none and the printer writes none. */
  predicate Plain(a: Attr)
  {
    ValidTag(a.tag) && ParsedSuite(a.suite) && !a.unencryptedSrtp && !a.unauthenticatedSrtp && !a.unencryptedSrtcp
  }

  predicate Printable(codec: LineCodec, a: Attr)
  {
    Plain(a) && codec.keyFits(a.suite, a.key)
  }

  /** What is asked of the line parser alone. */
  ghost predicate Parses(codec: LineCodec)
  {
    forall line :: codec.parse(line).Some? ==> Plain(codec.parse(line).value)
  }

  /** What is asked of parser and printer together: a printed line is read back. */
  ghost predicate ReadsBack(codec: LineCodec)
  {
    forall a :: Printable(codec, a) ==> codec.parse(CRYPTO_PREFIX + codec.render(a)) == Some(a)
  }

  ghost predicate Lawful(codec: LineCodec)
  {
    Parses(codec) && ReadsBack(codec)
  }

  /** What is asked of key generation: the key fits the suite it was made for. */
  ghost predicate GoodKeys(codec: LineCodec, keys: Suite -> string)
  {
    forall s :: ParsedSuite(s) ==> codec.keyFits(s, keys(s))
  }

  // ----- These demands can be met -----

  function SuiteName(s: Suite): string
  {
    match s
    case Aes128Sha32 => "AES_CM_128_HMAC_SHA1_32"
    case Aes128Sha80 => "AES_CM_128_HMAC_SHA1_80"
    case Aes256Sha32 => "AES_256_CM_HMAC_SHA1_32"
    case Aes256Sha80 => "AES_256_CM_HMAC_SHA1_80"
    case _ => ""
  }

  /** A line with one key and no session parameters, as the program prints it. */
  function Line(a: Attr): string
    requires Plain(a)
  {
    Decimal.Digits(a.tag) + " " + (SuiteName(a.suite) + " " + ("inline:" + a.key))
  }

  lemma FirstField(x: string, y: string, u: string, v: string)
    requires ' ' !in x && ' ' !in y && x + " " + u == y + " " + v
    ensures x == y && u == v
  {
    assert (x + " " + u)[|x|] == ' ' && (y + " " + v)[|y|] == ' ';
    assert |x| == |y|;
    assert (x + " " + u)[..|x|] == x && (y + " " + v)[..|y|] == y;
    assert (x + " " + u)[|x| + 1..] == u && (y + " " + v)[|y| + 1..] == v;
  }

  lemma SuiteNames(s: Suite, t: Suite)
    requires ParsedSuite(s) && ParsedSuite(t)
    ensures ' ' !in SuiteName(s) && (SuiteName(s) == SuiteName(t) ==> s == t)
  {
    assert SuiteName(s)[4] == (if s.Aes128Sha32? || s.Aes128Sha80? then 'C' else '2');
    assert SuiteName(t)[4] == (if t.Aes128Sha32? || t.Aes128Sha80? then 'C' else '2');
    assert SuiteName(s)[21] == (if s.Aes128Sha32? || s.Aes256Sha32? then '3' else '8');
    assert SuiteName(t)[21] == (if t.Aes128Sha32? || t.Aes256Sha32? then '3' else '8');
  }

  /** No two attributes print alike. */
  lemma LinesDiffer(a: Attr, b: Attr)
    requires Plain(a) && Plain(b) && Line(a) == Line(b)
    ensures a == b
  {
    var restA, restB := "inline:" + a.key, "inline:" + b.key;
    FirstField(Decimal.Digits(a.tag), Decimal.Digits(b.tag),
               SuiteName(a.suite) + " " + restA, SuiteName(b.suite) + " " + restB);
    SuiteNames(a.suite, b.suite);
    SuiteNames(b.suite, a.suite);
    FirstField(SuiteName(a.suite), SuiteName(b.suite), restA, restB);
    assert restA[7..] == a.key && restB[7..] == b.key;
    Decimal.DigitsHaveValue(a.tag);
    Decimal.DigitsHaveValue(b.tag);
  }

  /** The attribute a line was printed from. */
  ghost function ReadLine(line: string): Option<Attr>
  {
    if exists a :: Plain(a) && line == CRYPTO_PREFIX + Line(a) then
      var a :| Plain(a) && line == CRYPTO_PREFIX + Line(a); Some(a)
    else None
  }

  /** Printing one-key lines in this format and reading them back is lawful, with any keys: nothing asked
      of the parser and the printer contradicts itself. */
  lemma SomeCodecIsLawful() returns (codec: LineCodec)
    ensures Lawful(codec) && forall keys: Suite -> string :: GoodKeys(codec, keys)
  {
    codec := LineCodec(ReadLine, (a: Attr) => if Plain(a) then Line(a) else "", (s: Suite, k: string) => true);
    forall a | Printable(codec, a) ensures codec.parse(CRYPTO_PREFIX + codec.render(a)) == Some(a) {
      var line := CRYPTO_PREFIX + Line(a);
      var b := ReadLine(line).value;
      assert line[|CRYPTO_PREFIX|..] == Line(a) && (CRYPTO_PREFIX + Line(b))[|CRYPTO_PREFIX|..] == Line(b);
      LinesDiffer(a, b);
    }
  }

  predicate Supported(a: Attr)
  {
    !a.suite.UnknownSuite? && !a.unencryptedSrtp && !a.unauthenticatedSrtp && !a.unencryptedSrtcp
  }

  function CryptoLines(media: seq<MediaAttribute>): seq<string>
  {
    if media == [] then []
    else (if media[0].name == "crypto" then [CRYPTO_PREFIX + media[0].value] else []) + CryptoLines(media[1..])
  }

  function ParseLines(codec: LineCodec, lines: seq<string>): seq<Attr>
  {
    if lines == [] then []
    else
      var rest := ParseLines(codec, lines[1..]);
      match codec.parse(lines[0])
      case Some(a) => [a] + rest
      case None => rest
  }

  /** The first attribute with a tag. */
  function ByTag(attrs: seq<Attr>, tag: int): (r: Option<Attr>)
    ensures r.None? <==> forall k :: 0 <= k < |attrs| ==> attrs[k].tag != tag
    ensures r.Some? ==> exists k :: 0 <= k < |attrs| && attrs[k] == r.value && r.value.tag == tag
                                    && forall j :: 0 <= j < k ==> attrs[j].tag != tag
  {
    if attrs == [] then None
    else if attrs[0].tag == tag then Some(attrs[0])
    else
      var rest := ByTag(attrs[1..], tag);
      assert rest.Some? ==> exists k :: 0 <= k < |attrs| - 1 && attrs[1..][k] == rest.value && rest.value.tag == tag
                                        && forall j :: 0 <= j < k + 1 ==> attrs[j].tag != tag;
      rest
  }

  /** The first tag of `attrs` that also occurs in `others`, or -1. */
  function FirstCommonTag(attrs: seq<Attr>, others: seq<Attr>): (tag: int)
    ensures tag == -1 || (ByTag(attrs, tag).Some? && ByTag(others, tag).Some?)
  {
    if attrs == [] then -1
    else if ByTag(others, attrs[0].tag).Some? then attrs[0].tag
    else FirstCommonTag(attrs[1..], others)
  }

  function FirstSupported(attrs: seq<Attr>): (r: Option<Attr>)
    ensures r.None? <==> forall k :: 0 <= k < |attrs| ==> !Supported(attrs[k])
    ensures r.Some? ==> exists k :: 0 <= k < |attrs| && attrs[k] == r.value && Supported(r.value)
                                    && forall j :: 0 <= j < k ==> !Supported(attrs[j])
  {
    if attrs == [] then None
    else if Supported(attrs[0]) then Some(attrs[0])
    else
      var rest := FirstSupported(attrs[1..]);
      assert rest.Some? ==> exists k :: 0 <= k < |attrs| - 1 && attrs[1..][k] == rest.value && Supported(rest.value)
                                        && forall j :: 0 <= j < k + 1 ==> !Supported(attrs[j]);
      rest
  }

  predicate Final(s: ContextState)
  {
    s.NegotiationFailed? || s.NegotiationSuccess?
  }

  function Enter(c: Context, s: ContextState): Context
  {
    if c.state == s then c else c.(state := s, notices := c.notices + [s])
  }

  function CommonTag(c: Context): int
  {
    if c.state.OfferLocal? then FirstCommonTag(c.local, c.remote) else FirstCommonTag(c.remote, c.local)
  }

  /** The next state of a context, and whether it moved. */
  function Updated(c: Context): (Context, bool)
  {
    if Final(c.state) then (c, false)
    else if c.state.Init? then
      if c.local != [] then (Enter(c, OfferLocal), true)
      else if c.remote != [] then (Enter(c, OfferRemote), true)
      else (c, false)
    else
      var tag := CommonTag(c);
      if tag == -1 then (c.(state := NegotiationFailed), true)
      else
        var mine, theirs := ByTag(c.local, tag), ByTag(c.remote, tag);
        if mine.None? || theirs.None? || mine.value.suite != theirs.value.suite then
          (Enter(c, NegotiationFailed), true)
        else
          (Enter(c.(tag := tag), NegotiationSuccess), true)
  }

  function SetLocal(codec: LineCodec, c: Context, media: seq<MediaAttribute>): (Context, bool)
  {
    var attrs := ParseLines(codec, CryptoLines(media));
    if c.local != [] || attrs == [] then (c, false) else Updated(c.(local := attrs))
  }

  function SetRemote(codec: LineCodec, c: Context, media: seq<MediaAttribute>): (Context, bool)
  {
    var attrs := ParseLines(codec, CryptoLines(media));
    if c.remote != [] || attrs == [] then (c, false) else Updated(c.(remote := attrs))
  }

  function Fresh(tag: int, suite: Suite, keys: Suite -> string): Attr
  {
    Attr(tag, suite, keys(suite), false, false, false)
  }

  function OwnOffer(keys: Suite -> string): seq<Attr>
  {
    [Fresh(1, Aes256Sha80, keys)]
    + ([Fresh(2, Aes256Sha32, keys)] + ([Fresh(3, Aes128Sha80, keys)] + [Fresh(4, Aes128Sha32, keys)]))
  }

  function MakeOffer(c: Context, keys: Suite -> string): (Context, bool)
  {
    if !c.state.Init? then (c, false) else Updated(c.(local := OwnOffer(keys)))
  }

  function MakeAnswer(c: Context, keys: Suite -> string): (Context, bool)
  {
    if !c.state.OfferRemote? then (c, false)
    else
      match FirstSupported(c.remote)
      case None => (c, false)
      case Some(a) => Updated(c.(local := [Fresh(a.tag, a.suite, keys)]))
  }

  function LocalCrypto(c: Context): Option<Attr>
  {
    if c.state.NegotiationSuccess? then ByTag(c.local, c.tag) else None
  }

  function RemoteCrypto(c: Context): Option<Attr>
  {
    if c.state.NegotiationSuccess? then ByTag(c.remote, c.tag) else None
  }

  const NEW_CONTEXT := Context(Init, [], [], 0, [])

  // ----- What every operation keeps -----

  ghost predicate AllPlain(attrs: seq<Attr>)
  {
    forall k :: 0 <= k < |attrs| ==> Plain(attrs[k])
  }

  /** Which lists a state goes with, and what success means. */
  ghost predicate Inv(c: Context)
  {
    && AllPlain(c.local) && AllPlain(c.remote)
    && (c.state.Init? <==> c.local == [] && c.remote == [])
    && (c.state.OfferLocal? <==> c.local != [] && c.remote == [])
    && (c.state.OfferRemote? <==> c.local == [] && c.remote != [])
    && (c.state.NegotiationSuccess? ==>
          var mine, theirs := ByTag(c.local, c.tag), ByTag(c.remote, c.tag);
          mine.Some? && theirs.Some? && mine.value.suite == theirs.value.suite)
  }

  datatype Op =
    | OpSetLocal(media: seq<MediaAttribute>)
    | OpSetRemote(media: seq<MediaAttribute>)
    | OpOffer(keys: Suite -> string)
    | OpAnswer(keys: Suite -> string)

  function Do(codec: LineCodec, c: Context, op: Op): (Context, bool)
  {
    match op
    case OpSetLocal(m) => SetLocal(codec, c, m)
    case OpSetRemote(m) => SetRemote(codec, c, m)
    case OpOffer(k) => MakeOffer(c, k)
    case OpAnswer(k) => MakeAnswer(c, k)
  }

  /** How far a negotiation has come. */
  function Rank(s: ContextState): nat
  {
    if s.Init? then 0 else if Final(s) then 2 else 1
  }

  lemma ParsedArePlain(codec: LineCodec, lines: seq<string>)
    requires Parses(codec)
    ensures AllPlain(ParseLines(codec, lines))
  {
  }

  /** The first list makes an offer. */
  lemma FirstListKeepsInv(c: Context)
    requires AllPlain(c.local) && AllPlain(c.remote) && c.state.Init?
    requires (c.local == []) != (c.remote == [])
    ensures Inv(Updated(c).0) && Updated(c).1 && Rank(Updated(c).0.state) == 1
  {
  }

  /** The second list settles the negotiation. */
  lemma SecondListSettles(c: Context)
    requires AllPlain(c.local) && AllPlain(c.remote) && (c.state.OfferLocal? || c.state.OfferRemote?)
    ensures var (after, changed) := Updated(c);
            && changed && Final(after.state) && after.local == c.local && after.remote == c.remote
            && (after.state.NegotiationSuccess? ==>
                  && ByTag(c.local, after.tag).Some? && ByTag(c.remote, after.tag).Some?
                  && ByTag(c.local, after.tag).value.suite == ByTag(c.remote, after.tag).value.suite)
  {
    if c.state.OfferLocal? {
      CommonTagIsCommon(c.local, c.remote);
    } else {
      CommonTagIsCommon(c.remote, c.local);
    }
  }

  lemma SecondListKeepsInv(c: Context)
    requires AllPlain(c.local) && AllPlain(c.remote) && c.local != [] && c.remote != []
    requires c.state.OfferLocal? || c.state.OfferRemote?
    ensures Inv(Updated(c).0) && Updated(c).1 && Rank(Updated(c).0.state) == 2
  {
    SecondListSettles(c);
  }

  lemma UpdateKeepsInv(before: Context, c: Context)
    requires Inv(before)
    requires AllPlain(c.local) && AllPlain(c.remote) && c.state == before.state && c.tag == before.tag
    requires (c.remote == before.remote && before.local == [] && c.local != [])
             || (c.local == before.local && before.remote == [] && c.remote != [])
    ensures Inv(Updated(c).0) && Updated(c).1 && Rank(Updated(c).0.state) == Rank(before.state) + 1
  {
    if before.state.Init? {
      FirstListKeepsInv(c);
    } else {
      SecondListKeepsInv(c);
    }
  }

  lemma OfferKeepsInv(c: Context, keys: Suite -> string)
    requires Inv(c)
    ensures var (after, changed) := MakeOffer(c, keys); Moved(c, after, changed)
  {
    if c.state.Init? {
      UpdateKeepsInv(c, c.(local := OwnOffer(keys)));
    }
  }

  lemma AnswerKeepsInv(c: Context, keys: Suite -> string)
    requires Inv(c)
    ensures var (after, changed) := MakeAnswer(c, keys); Moved(c, after, changed)
  {
    if c.state.OfferRemote? && FirstSupported(c.remote).Some? {
      var choice := FirstSupported(c.remote).value;
      var k :| 0 <= k < |c.remote| && c.remote[k] == choice;
      UpdateKeepsInv(c, c.(local := [Fresh(choice.tag, choice.suite, keys)]));
    }
  }

  /** What one operation may do to a context, and what it says about it. */
  ghost predicate Moved(c: Context, after: Context, changed: bool)
  {
    && Inv(after)
    && (changed <==> after.state != c.state)
    && Rank(after.state) == Rank(c.state) + (if changed then 1 else 0)
    && (Final(c.state) ==> after == c)
  }

  /** Every operation keeps the invariant, returns TRUE exactly when the state moved, only ever moves
      one rank up, and leaves a final context alone. */
  lemma OperationsKeepInv(codec: LineCodec, c: Context, op: Op)
    requires Parses(codec) && Inv(c)
    ensures var (after, changed) := Do(codec, c, op); Moved(c, after, changed)
  {
    match op
    case OpSetLocal(m) =>
      ParsedArePlain(codec, CryptoLines(m));
      var attrs := ParseLines(codec, CryptoLines(m));
      if c.local == [] && attrs != [] {
        UpdateKeepsInv(c, c.(local := attrs));
      }
    case OpSetRemote(m) =>
      ParsedArePlain(codec, CryptoLines(m));
      var attrs := ParseLines(codec, CryptoLines(m));
      if c.remote == [] && attrs != [] {
        UpdateKeepsInv(c, c.(remote := attrs));
      }
    case OpOffer(keys) => OfferKeepsInv(c, keys);
    case OpAnswer(keys) => AnswerKeepsInv(c, keys);
  }

  function DoAll(codec: LineCodec, c: Context, ops: seq<Op>): (Context, nat)
    decreases |ops|
  {
    if ops == [] then (c, 0)
    else
      var (next, changed) := Do(codec, c, ops[0]);
      var (last, more) := DoAll(codec, next, ops[1..]);
      (last, more + if changed then 1 else 0)
  }

  /** Over any run of operations a context moves at most twice, and when it reports success both
      getters return attributes with one tag and one suite. */
  lemma {:induction false} RunOfOperations(codec: LineCodec, c: Context, ops: seq<Op>)
    requires Parses(codec) && Inv(c)
    ensures var (last, moves) := DoAll(codec, c, ops);
            && Inv(last) && Rank(last.state) == Rank(c.state) + moves && moves <= 2
            && (last.state.NegotiationSuccess? <==> LocalCrypto(last).Some?)
            && (last.state.NegotiationSuccess? <==> RemoteCrypto(last).Some?)
            && (last.state.NegotiationSuccess? ==>
                  && LocalCrypto(last).value.tag == RemoteCrypto(last).value.tag == last.tag
                  && LocalCrypto(last).value.suite == RemoteCrypto(last).value.suite)
    decreases |ops|
  {
    if ops != [] {
      OperationsKeepInv(codec, c, ops[0]);
      RunOfOperations(codec, Do(codec, c, ops[0]).0, ops[1..]);
    }
  }

  // ----- What a media description says -----

  /** Positions in ascending order. */
  ghost predicate Ascending(at: seq<nat>, n: nat)
  {
    && (forall k :: 0 <= k < |at| ==> at[k] < n)
    && (forall j, k :: 0 <= j < k < |at| ==> at[j] < at[k])
  }

  /** An attribute with the name "crypto" whose line the parser accepts. */
  ghost predicate IsHeard(codec: LineCodec, m: MediaAttribute)
  {
    m.name == "crypto" && codec.parse("a=crypto:" + m.value).Some?
  }

  /** `at` lists where the attributes are, among the first `n`, that can be heard. */
  ghost predicate HeardBefore(codec: LineCodec, media: seq<MediaAttribute>, n: nat, at: seq<nat>)
    requires n <= |media|
  {
    && Ascending(at, n)
    && (forall k :: 0 <= k < |at| ==> IsHeard(codec, media[at[k]]))
    && (forall i {:trigger i in at} :: 0 <= i < n && IsHeard(codec, media[i]) ==> i in at)
  }

  ghost predicate HeardAt(codec: LineCodec, media: seq<MediaAttribute>, at: seq<nat>)
  {
    HeardBefore(codec, media, |media|, at)
  }

  /** What is heard at these positions, in the order of the media description. */
  ghost function HeardThere(codec: LineCodec, media: seq<MediaAttribute>, at: seq<nat>): seq<Attr>
    requires HeardAt(codec, media, at)
  {
    seq(|at|, k requires 0 <= k < |at| => codec.parse("a=crypto:" + media[at[k]].value).value)
  }

  /** What is heard from one attribute on. */
  lemma HeardNext(codec: LineCodec, media: seq<MediaAttribute>, from: nat)
    requires from < |media|
    ensures var rest := ParseLines(codec, CryptoLines(media[from + 1..]));
            ParseLines(codec, CryptoLines(media[from..])) ==
            if IsHeard(codec, media[from]) then [codec.parse("a=crypto:" + media[from].value).value] + rest else rest
  {
    var rest := CryptoLines(media[from + 1..]);
    assert media[from..][1..] == media[from + 1..];
    if media[from].name == "crypto" {
      var line := "a=crypto:" + media[from].value;
      assert CryptoLines(media[from..]) == [line] + rest && ([line] + rest)[1..] == rest;
    } else {
      assert CryptoLines(media[from..]) == rest;
    }
  }

  /** The positions from `j` on are those that come from `from` on. */
  ghost predicate Split(at: seq<nat>, from: nat, j: nat)
  {
    j <= |at| && (j > 0 ==> at[j - 1] < from) && (j < |at| ==> from <= at[j])
  }

  lemma NextPosition(codec: LineCodec, media: seq<MediaAttribute>, at: seq<nat>, from: nat, j: nat)
    requires HeardAt(codec, media, at) && from < |media| && Split(at, from, j)
    ensures if IsHeard(codec, media[from]) then
              && j < |at| && at[j] == from && Split(at, from + 1, j + 1)
              && HeardThere(codec, media, at)[j] == codec.parse("a=crypto:" + media[from].value).value
            else
              Split(at, from + 1, j)
  {
    if IsHeard(codec, media[from]) {
      assert from in at;
      var k :| 0 <= k < |at| && at[k] == from;
    }
  }

  lemma {:induction false} HeardFrom(codec: LineCodec, media: seq<MediaAttribute>, at: seq<nat>, heard: seq<Attr>,
                                     from: nat, j: nat)
    requires HeardAt(codec, media, at) && heard == HeardThere(codec, media, at)
    requires from <= |media| && Split(at, from, j)
    ensures ParseLines(codec, CryptoLines(media[from..])) == heard[j..]
    decreases |media| - from
  {
    if from == |media| {
      assert j == |at|;
    } else {
      HeardNext(codec, media, from);
      NextPosition(codec, media, at, from, j);
      if IsHeard(codec, media[from]) {
        HeardFrom(codec, media, at, heard, from + 1, j + 1);
        OneMore(heard, j);
      } else {
        HeardFrom(codec, media, at, heard, from + 1, j);
      }
    }
  }

  lemma OneMore<T>(s: seq<T>, j: nat)
    requires j < |s|
    ensures s[j..] == [s[j]] + s[j + 1..]
  {
  }

  /** The two loops of the program, over the attributes and over their lines, collect what can be heard, each
      attribute once and in the order of the media description, whatever stands in between. */
  lemma HeardInOrder(codec: LineCodec, media: seq<MediaAttribute>, at: seq<nat>)
    requires HeardAt(codec, media, at)
    ensures ParseLines(codec, CryptoLines(media)) == HeardThere(codec, media, at)
  {
    HeardFrom(codec, media, at, HeardThere(codec, media, at), 0, 0);
    assert media[0..] == media;
  }

  /** Every media description has such positions. */
  lemma {:induction false} SomewhereHeard(codec: LineCodec, media: seq<MediaAttribute>, n: nat) returns (at: seq<nat>)
    requires n <= |media|
    ensures HeardBefore(codec, media, n, at)
  {
    if n == 0 {
      at := [];
    } else {
      var before := SomewhereHeard(codec, media, n - 1);
      at := before;
      if IsHeard(codec, media[n - 1]) {
        at := before + [n - 1];
      }
      forall i {:trigger i in at} | 0 <= i < n && IsHeard(codec, media[i]) ensures i in at {
        if i < n - 1 {
          assert i in before;
        } else {
          assert at[|before|] == i;
        }
      }
    }
  }

  /** The media description another program gets when attributes are printed into it: those with the name
      "crypto" are at `at` and carry the printed values in this order. Others may stand in between. */
  ghost predicate Describes(codec: LineCodec, media: seq<MediaAttribute>, attrs: seq<Attr>, at: seq<nat>)
  {
    && |at| == |attrs| && Ascending(at, |media|)
    && (forall i :: 0 <= i < |media| ==> (media[i].name == "crypto" <==> i in at))
    && (forall k :: 0 <= k < |at| ==> media[at[k]].value == codec.render(attrs[k]))
  }

  /** What was printed is heard unchanged and in order. */
  lemma DescribedIsHeard(codec: LineCodec, media: seq<MediaAttribute>, attrs: seq<Attr>, at: seq<nat>)
    requires ReadsBack(codec) && Describes(codec, media, attrs, at)
    requires forall k :: 0 <= k < |attrs| ==> Printable(codec, attrs[k])
    ensures HeardAt(codec, media, at) && ParseLines(codec, CryptoLines(media)) == attrs
  {
    forall k | 0 <= k < |at| ensures codec.parse("a=crypto:" + media[at[k]].value) == Some(attrs[k]) {
      assert Printable(codec, attrs[k]);
      assert at[k] in at;
    }
    forall i | 0 <= i < |media| && IsHeard(codec, media[i]) ensures i in at {
    }
    HeardInOrder(codec, media, at);
    assert HeardThere(codec, media, at) == attrs;
  }

  /** A context that has no remote attributes yet takes what it hears, in order, or says FALSE if there is
      nothing to hear; a new one has then heard an offer. */
  lemma HearsInOrder(codec: LineCodec, c: Context, media: seq<MediaAttribute>, at: seq<nat>)
    requires Parses(codec) && Inv(c) && c.remote == [] && HeardAt(codec, media, at)
    ensures var (after, changed) := SetRemote(codec, c, media);
            && (changed <==> at != [])
            && (at == [] ==> after == c)
            && after.remote == HeardThere(codec, media, at) && after.local == c.local
            && (at != [] && c.state.Init? ==>
                  after.state.OfferRemote? && after.notices == c.notices + [OfferRemote] && after.tag == c.tag)
            && (at != [] && c.state.OfferLocal? ==> Final(after.state))
  {
    HeardInOrder(codec, media, at);
    ParsedArePlain(codec, CryptoLines(media));
    TakesList(codec, c, media, HeardThere(codec, media, at));
  }

  lemma TakesList(codec: LineCodec, c: Context, media: seq<MediaAttribute>, attrs: seq<Attr>)
    requires Inv(c) && c.remote == [] && ParseLines(codec, CryptoLines(media)) == attrs && AllPlain(attrs)
    ensures var (after, changed) := SetRemote(codec, c, media);
            && (changed <==> attrs != [])
            && (attrs == [] ==> after == c)
            && after.remote == attrs && after.local == c.local
            && (attrs != [] && c.state.Init? ==>
                  after.state.OfferRemote? && after.notices == c.notices + [OfferRemote] && after.tag == c.tag)
            && (attrs != [] && c.state.OfferLocal? ==> Final(after.state))
  {
    if attrs != [] {
      UpdateKeepsInv(c, c.(remote := attrs));
      if c.state.OfferLocal? {
        SecondListSettles(c.(remote := attrs));
      }
    }
  }

  /** The same for the local attributes of a context that has none. */
  lemma SpeaksInOrder(codec: LineCodec, c: Context, media: seq<MediaAttribute>, at: seq<nat>)
    requires Parses(codec) && Inv(c) && c.local == [] && HeardAt(codec, media, at)
    ensures var (after, changed) := SetLocal(codec, c, media);
            && (changed <==> at != [])
            && (at == [] ==> after == c)
            && after.local == HeardThere(codec, media, at) && after.remote == c.remote
            && (at != [] && c.state.Init? ==>
                  after.state.OfferLocal? && after.notices == c.notices + [OfferLocal] && after.tag == c.tag)
            && (at != [] && c.state.OfferRemote? ==> Final(after.state))
  {
    var attrs := HeardThere(codec, media, at);
    HeardInOrder(codec, media, at);
    ParsedArePlain(codec, CryptoLines(media));
    GivesList(codec, c, media, attrs);
  }

  lemma GivesList(codec: LineCodec, c: Context, media: seq<MediaAttribute>, attrs: seq<Attr>)
    requires Inv(c) && c.local == [] && ParseLines(codec, CryptoLines(media)) == attrs && AllPlain(attrs)
    ensures var (after, changed) := SetLocal(codec, c, media);
            && (changed <==> attrs != [])
            && (attrs == [] ==> after == c)
            && after.local == attrs && after.remote == c.remote
            && (attrs != [] && c.state.Init? ==>
                  after.state.OfferLocal? && after.notices == c.notices + [OfferLocal] && after.tag == c.tag)
            && (attrs != [] && c.state.OfferRemote? ==> Final(after.state))
  {
    if attrs != [] {
      UpdateKeepsInv(c, c.(local := attrs));
      if c.state.OfferRemote? {
        SecondListSettles(c.(local := attrs));
      }
    }
  }

  // ----- The verdict -----

  ghost predicate HasTag(attrs: seq<Attr>, tag: int)
  {
    exists j :: 0 <= j < |attrs| && attrs[j].tag == tag
  }

  ghost predicate FirstWith(attrs: seq<Attr>, tag: int, k: int)
  {
    0 <= k < |attrs| && attrs[k].tag == tag && forall j :: 0 <= j < k ==> attrs[j].tag != tag
  }

  /** The first attribute of the offer with a tag that the answer has too is at `k`; at the end if there is none. */
  ghost predicate FirstCommon(offer: seq<Attr>, answer: seq<Attr>, k: nat)
  {
    && k <= |offer| && (forall j :: 0 <= j < k ==> !HasTag(answer, offer[j].tag))
    && (k < |offer| ==> HasTag(answer, offer[k].tag))
  }

  lemma {:induction false} FirstCommonIsChosen(offer: seq<Attr>, answer: seq<Attr>, k: nat)
    requires FirstCommon(offer, answer, k)
    ensures FirstCommonTag(offer, answer) == if k < |offer| then offer[k].tag else -1
  {
    if offer != [] && k > 0 {
      assert !HasTag(answer, offer[0].tag);
      assert forall j :: 0 <= j < |offer| - 1 ==> offer[1..][j] == offer[j + 1];
      FirstCommonIsChosen(offer[1..], answer, k - 1);
    }
  }

  /** How a negotiation with both lists is settled, whoever made the offer: by the first tag of the offer that
      the answer has too. It succeeds exactly if the first attributes with that tag have one suite. Without a
      common tag it fails, and nobody is told. */
  lemma VerdictIff(c: Context, k: nat, mine: nat, theirs: nat)
    requires AllPlain(c.local) && AllPlain(c.remote) && (c.state.OfferLocal? || c.state.OfferRemote?)
    requires var (offer, answer) := if c.state.OfferLocal? then (c.local, c.remote) else (c.remote, c.local);
             && FirstCommon(offer, answer, k)
             && (k < |offer| ==> FirstWith(c.local, offer[k].tag, mine) && FirstWith(c.remote, offer[k].tag, theirs))
    ensures var offer := if c.state.OfferLocal? then c.local else c.remote;
            Updated(c) == (
              if k == |offer| then c.(state := NegotiationFailed)
              else if c.local[mine].suite == c.remote[theirs].suite then
                c.(state := NegotiationSuccess, tag := offer[k].tag, notices := c.notices + [NegotiationSuccess])
              else c.(state := NegotiationFailed, notices := c.notices + [NegotiationFailed]), true)
  {
    var (offer, answer) := if c.state.OfferLocal? then (c.local, c.remote) else (c.remote, c.local);
    FirstCommonIsChosen(offer, answer, k);
    if k < |offer| {
      FirstIsFound(c.local, offer[k].tag, mine);
      FirstIsFound(c.remote, offer[k].tag, theirs);
    }
  }

  lemma FirstIsFound(attrs: seq<Attr>, tag: int, k: nat)
    requires FirstWith(attrs, tag, k)
    ensures ByTag(attrs, tag) == Some(attrs[k])
  {
    var found := ByTag(attrs, tag);
    var i :| 0 <= i < |attrs| && attrs[i] == found.value && found.value.tag == tag
             && forall j :: 0 <= j < i ==> attrs[j].tag != tag;
    assert i == k;
  }

  // ----- Two parties -----

  /** The offer list as an offerer holds it once its own attributes are set. */
  ghost predicate Offering(codec: LineCodec, c: Context)
  {
    Inv(c) && c.state.OfferLocal? && forall k :: 0 <= k < |c.local| ==> Printable(codec, c.local[k])
  }

  lemma {:induction false} CommonWithOne(attrs: seq<Attr>, one: Attr)
    ensures FirstCommonTag(attrs, [one]) == if ByTag(attrs, one.tag).Some? then one.tag else -1
  {
    if attrs != [] {
      CommonWithOne(attrs[1..], one);
      assert ByTag([one], attrs[0].tag).Some? <==> attrs[0].tag == one.tag by {
        assert [one][0] == one;
      }
    }
  }

  /** What can be answered: a known suite and no session parameters. */
  ghost predicate Answerable(a: Attr)
  {
    a.suite != UnknownSuite && !(a.unencryptedSrtp || a.unauthenticatedSrtp || a.unencryptedSrtcp)
  }

  /** The first attribute that can be answered is at `k`; at the end of the list if there is none. */
  ghost predicate FirstAnswerable(attrs: seq<Attr>, k: nat)
  {
    k <= |attrs| && (forall j :: 0 <= j < k ==> !Answerable(attrs[j])) && (k < |attrs| ==> Answerable(attrs[k]))
  }

  /** The answer to any offer, whether or not its attributes carry session parameters: it takes the first
      attribute that can be answered, and succeeds exactly if the first attribute with its tag has its suite. */
  lemma AnswerVerdict(heard: Context, keys: Suite -> string, k: nat)
    requires heard.state.OfferRemote? && forall j :: 0 <= j < |heard.remote| ==> ValidTag(heard.remote[j].tag)
    requires FirstAnswerable(heard.remote, k)
    ensures var (answerer, answered) := MakeAnswer(heard, keys);
            && (answered <==> k < |heard.remote|)
            && (!answered ==> answerer == heard)
            && (answered ==>
                  var choice := heard.remote[k];
                  && answerer.local == [Attr(choice.tag, choice.suite, keys(choice.suite), false, false, false)]
                  && answerer.remote == heard.remote
                  && ByTag(heard.remote, choice.tag).Some?
                  && Final(answerer.state)
                  && (answerer.state.NegotiationSuccess? <==>
                        ByTag(heard.remote, choice.tag).value.suite == choice.suite)
                  && (answerer.state.NegotiationSuccess? ==> answerer.tag == choice.tag))
  {
    if k < |heard.remote| {
      var choice := FirstSupported(heard.remote);
      assert Supported(heard.remote[k]);
      var i :| 0 <= i < |heard.remote| && heard.remote[i] == choice.value && Supported(choice.value)
               && forall j :: 0 <= j < i ==> !Supported(heard.remote[j]);
      assert i == k;
      OneAnswer(heard, Fresh(choice.value.tag, choice.value.suite, keys));
    }
  }

  lemma OneAnswer(heard: Context, mine: Attr)
    requires heard.state.OfferRemote? && ValidTag(mine.tag) && ByTag(heard.remote, mine.tag).Some?
    ensures var answerer := Updated(heard.(local := [mine])).0;
            && Final(answerer.state) && Updated(heard.(local := [mine])).1
            && answerer.local == [mine] && answerer.remote == heard.remote
            && (answerer.state.NegotiationSuccess? <==> ByTag(heard.remote, mine.tag).value.suite == mine.suite)
            && (answerer.state.NegotiationSuccess? ==> answerer.tag == mine.tag)
  {
    CommonWithOne(heard.remote, mine);
    assert [mine][0] == mine && ByTag([mine], mine.tag) == Some(mine);
  }

  /** A context that heard an offer always answers it with success, on the first attribute, even if tags
      are repeated: what the parser yields is supported, and the first attribute is the first with its
      tag. */
  lemma AnsweringSucceeds(heard: Context, keys: Suite -> string)
    requires Inv(heard) && heard.state.OfferRemote?
    ensures var (answerer, answered) := MakeAnswer(heard, keys);
            var first := heard.remote[0];
            && answered && answerer.state.NegotiationSuccess? && answerer.tag == first.tag
            && answerer.local == [Fresh(first.tag, first.suite, keys)] && answerer.remote == heard.remote
            && LocalCrypto(answerer) == Some(answerer.local[0]) && RemoteCrypto(answerer) == Some(first)
  {
    assert Plain(heard.remote[0]);
    AnswerVerdict(heard, keys, 0);
  }

  lemma OfferHeard(codec: LineCodec, offer: seq<Attr>, media: seq<MediaAttribute>, at: seq<nat>)
    requires ReadsBack(codec) && offer != [] && Describes(codec, media, offer, at)
    requires forall k :: 0 <= k < |offer| ==> Printable(codec, offer[k])
    ensures SetRemote(codec, NEW_CONTEXT, media) == (Context(OfferRemote, [], offer, 0, [OfferRemote]), true)
  {
    DescribedIsHeard(codec, media, offer, at);
    assert [] + [OfferRemote] == [OfferRemote];
  }

  /** The answerer: a new context that hears an offer and answers it. */
  function Answering(codec: LineCodec, offer: seq<MediaAttribute>, keys: Suite -> string): (Context, bool)
  {
    MakeAnswer(SetRemote(codec, NEW_CONTEXT, offer).0, keys)
  }

  /** A new context answers a media description exactly if some attribute named "crypto" can be parsed, and
      then with success, on the first such attribute in the description. */
  lemma AnsweredIff(codec: LineCodec, media: seq<MediaAttribute>, keys: Suite -> string, at: seq<nat>)
    requires Parses(codec) && HeardAt(codec, media, at)
    ensures var (answerer, answered) := Answering(codec, media, keys);
            && (answered <==> exists m :: m in media && m.name == "crypto" && codec.parse("a=crypto:" + m.value).Some?)
            && (answered <==> answerer.state.NegotiationSuccess?)
            && (answered <==> at != [])
            && (answered ==>
                  var first := codec.parse("a=crypto:" + media[at[0]].value).value;
                  && LocalCrypto(answerer) == Some(Fresh(first.tag, first.suite, keys))
                  && RemoteCrypto(answerer) == Some(first))
  {
    OperationsKeepInv(codec, NEW_CONTEXT, OpSetRemote(media));
    HearsInOrder(codec, NEW_CONTEXT, media, at);
    if at != [] {
      AnsweringSucceeds(SetRemote(codec, NEW_CONTEXT, media).0, keys);
      assert IsHeard(codec, media[at[0]]);
    }
    if m :| m in media && m.name == "crypto" && codec.parse("a=crypto:" + m.value).Some? {
      var i :| 0 <= i < |media| && media[i] == m;
      assert IsHeard(codec, media[i]) && i in at;
    }
  }

  /** Where an offerer ends when it hears an answer of one attribute. */
  lemma OffererEnds(codec: LineCodec, offerer: Context, answerMedia: seq<MediaAttribute>, mine: Attr)
    requires Inv(offerer) && offerer.state.OfferLocal?
    requires ParseLines(codec, CryptoLines(answerMedia)) == [mine]
    ensures var done := SetRemote(codec, offerer, answerMedia).0;
            var asked := ByTag(offerer.local, mine.tag);
            && done.local == offerer.local && done.remote == [mine] && Final(done.state)
            && (done.state.NegotiationSuccess? <==> asked.Some? && asked.value.suite == mine.suite)
            && (done.state.NegotiationSuccess? ==> done.tag == mine.tag)
  {
    assert [mine][0] == mine && ByTag([mine], mine.tag) == Some(mine);
    FirstTagOf(offerer.local, mine);
  }

  lemma {:induction false} FirstTagOf(attrs: seq<Attr>, one: Attr)
    requires AllPlain(attrs)
    ensures FirstCommonTag(attrs, [one]) == if ByTag(attrs, one.tag).Some? then one.tag else -1
    ensures ByTag(attrs, one.tag).Some? ==> ValidTag(one.tag)
  {
    CommonWithOne(attrs, one);
    if ByTag(attrs, one.tag).Some? {
      var k :| 0 <= k < |attrs| && attrs[k].tag == one.tag;
    }
  }

  /** Each holds the other's attribute. */
  ghost predicate Crossed(done: Context, answerer: Context)
  {
    LocalCrypto(done) == RemoteCrypto(answerer) && RemoteCrypto(done) == LocalCrypto(answerer)
  }

  /** Two parties: whatever is offered, with repeated tags or not, is answered, and once the answer is back
      both parties hold the same two lists and have succeeded on the first attribute of the offer, each one's
      local attribute being the other's remote one. */
  lemma PartiesAgree(codec: LineCodec, offerer: Context, offerMedia: seq<MediaAttribute>, offerAt: seq<nat>,
                     answerMedia: seq<MediaAttribute>, answerAt: seq<nat>, keys: Suite -> string)
    requires Lawful(codec) && GoodKeys(codec, keys) && Offering(codec, offerer)
    requires Describes(codec, offerMedia, offerer.local, offerAt)
    requires Describes(codec, answerMedia, Answering(codec, offerMedia, keys).0.local, answerAt)
    ensures var (answerer, answered) := Answering(codec, offerMedia, keys);
            var done := SetRemote(codec, offerer, answerMedia).0;
            var first := offerer.local[0];
            && answered && done.state == answerer.state == NegotiationSuccess
            && answerer.remote == done.local == offerer.local && done.remote == answerer.local
            && done.tag == answerer.tag == first.tag && Crossed(done, answerer)
            && LocalCrypto(done) == Some(first)
            && RemoteCrypto(done) == Some(Fresh(first.tag, first.suite, keys))
  {
    var offer := offerer.local;
    var first := offer[0];
    var mine := Fresh(first.tag, first.suite, keys);
    OfferHeard(codec, offer, offerMedia, offerAt);
    AnsweringSucceeds(SetRemote(codec, NEW_CONTEXT, offerMedia).0, keys);
    assert Printable(codec, first);
    DescribedIsHeard(codec, answerMedia, [mine], answerAt);
    OffererEnds(codec, offerer, answerMedia, mine);
    assert [mine][0] == mine && ByTag([mine], mine.tag) == Some(mine);
  }

  /** The offer this program makes itself is always answered with success on AES-256 and SHA1-80. */
  lemma OwnOfferSucceeds(codec: LineCodec, keys: Suite -> string, theirKeys: Suite -> string,
                         offerMedia: seq<MediaAttribute>, offerAt: seq<nat>,
                         answerMedia: seq<MediaAttribute>, answerAt: seq<nat>)
    requires Lawful(codec) && GoodKeys(codec, keys) && GoodKeys(codec, theirKeys)
    requires Describes(codec, offerMedia, MakeOffer(NEW_CONTEXT, keys).0.local, offerAt)
    requires Describes(codec, answerMedia, Answering(codec, offerMedia, theirKeys).0.local, answerAt)
    ensures var (answerer, answered) := Answering(codec, offerMedia, theirKeys);
            var done := SetRemote(codec, MakeOffer(NEW_CONTEXT, keys).0, answerMedia).0;
            && answered && done.state == answerer.state == NegotiationSuccess
            && Crossed(done, answerer)
            && LocalCrypto(done) == Some(Attr(1, Aes256Sha80, keys(Aes256Sha80), false, false, false))
            && RemoteCrypto(done) == Some(Attr(1, Aes256Sha80, theirKeys(Aes256Sha80), false, false, false))
  {
    OwnOfferStands(codec, keys);
    PartiesAgree(codec, MakeOffer(NEW_CONTEXT, keys).0, offerMedia, offerAt, answerMedia, answerAt, theirKeys);
  }

  lemma OwnOfferStands(codec: LineCodec, keys: Suite -> string)
    requires GoodKeys(codec, keys)
    ensures var offerer := MakeOffer(NEW_CONTEXT, keys).0;
            && Offering(codec, offerer)
            && offerer.local[0] == Attr(1, Aes256Sha80, keys(Aes256Sha80), false, false, false)
  {
    OfferKeepsInv(NEW_CONTEXT, keys);
  }

  // ----- Answers of other programs -----

  /** The suite this program offers under a tag. */
  function OfferedSuite(tag: int): Suite
  {
    if tag == 1 then Aes256Sha80
    else if tag == 2 then Aes256Sha32
    else if tag == 3 then Aes128Sha80
    else if tag == 4 then Aes128Sha32
    else UnknownSuite
  }

  /** The lowest offered tag that occurs in the answer carries, where it first occurs, the suite offered
      under it. */
  ghost predicate Acceptable(answer: seq<Attr>)
  {
    exists t :: 1 <= t <= 4 && AnsweredUnder(answer, t) && (forall u :: 1 <= u < t ==> ByTag(answer, u).None?)
  }

  ghost predicate AnsweredUnder(answer: seq<Attr>, tag: int)
  {
    ByTag(answer, tag).Some? && ByTag(answer, tag).value.suite == OfferedSuite(tag)
  }

  lemma OneMoreAttr(a: Attr, rest: seq<Attr>, tag: int, others: seq<Attr>)
    ensures ByTag([a] + rest, tag) == if a.tag == tag then Some(a) else ByTag(rest, tag)
    ensures FirstCommonTag([a] + rest, others)
         == if ByTag(others, a.tag).Some? then a.tag else FirstCommonTag(rest, others)
  {
    assert ([a] + rest)[1..] == rest;
  }

  lemma FourAttrs(a: Attr, b: Attr, c: Attr, d: Attr, tag: int, others: seq<Attr>)
    requires a.tag == 1 && b.tag == 2 && c.tag == 3 && d.tag == 4
    ensures var all := [a] + ([b] + ([c] + [d]));
            && ByTag(all, tag) == (if tag == 1 then Some(a) else if tag == 2 then Some(b) else if tag == 3 then Some(c)
                                   else if tag == 4 then Some(d) else None)
            && FirstCommonTag(all, others) ==
               (if ByTag(others, 1).Some? then 1 else if ByTag(others, 2).Some? then 2
                else if ByTag(others, 3).Some? then 3 else if ByTag(others, 4).Some? then 4 else -1)
  {
    OneMoreAttr(d, [], tag, others);
    assert [d] + [] == [d];
    OneMoreAttr(c, [d], tag, others);
    OneMoreAttr(b, [c] + [d], tag, others);
    OneMoreAttr(a, [b] + ([c] + [d]), tag, others);
  }

  /** Under each of its tags the own offer has the suite of that tag, and the tag it has in common with an
      answer is the lowest one the answer names. */
  lemma OwnTags(keys: Suite -> string, answer: seq<Attr>, tag: int)
    requires 1 <= tag <= 4
    ensures ByTag(OwnOffer(keys), tag) == Some(Fresh(tag, OfferedSuite(tag), keys))
    ensures FirstCommonTag(OwnOffer(keys), answer) ==
            if ByTag(answer, 1).Some? then 1 else if ByTag(answer, 2).Some? then 2
            else if ByTag(answer, 3).Some? then 3 else if ByTag(answer, 4).Some? then 4 else -1
  {
    var a, b := Fresh(1, Aes256Sha80, keys), Fresh(2, Aes256Sha32, keys);
    var c, d := Fresh(3, Aes128Sha80, keys), Fresh(4, Aes128Sha32, keys);
    FourAttrs(a, b, c, d, tag, answer);
  }

  lemma AcceptableAt(answer: seq<Attr>, tag: int)
    requires 1 <= tag <= 4 && ByTag(answer, tag).Some? && forall u :: 1 <= u < tag ==> ByTag(answer, u).None?
    ensures Acceptable(answer) <==> AnsweredUnder(answer, tag)
  {
    if Acceptable(answer) {
      var t :| 1 <= t <= 4 && AnsweredUnder(answer, t) && (forall u :: 1 <= u < t ==> ByTag(answer, u).None?);
      assert t == tag;
    }
  }

  lemma {:induction false} CommonTagIsCommon(attrs: seq<Attr>, others: seq<Attr>)
    requires AllPlain(attrs)
    ensures var tag := FirstCommonTag(attrs, others);
            tag != -1 ==> ValidTag(tag) && ByTag(attrs, tag).Some? && ByTag(others, tag).Some?
  {
    var tag := FirstCommonTag(attrs, others);
    if tag != -1 {
      var k :| 0 <= k < |attrs| && attrs[k].tag == tag;
    }
  }

  /** Any answer settles a negotiation: on the first common tag, if the first attributes with it agree. */
  lemma AnswerSettles(offerer: Context, answer: seq<Attr>)
    requires Inv(offerer) && offerer.state.OfferLocal? && answer != [] && AllPlain(answer)
    ensures var tag := FirstCommonTag(offerer.local, answer);
            var done := Updated(offerer.(remote := answer)).0;
            && Final(done.state)
            && (tag == -1 ==> done.state.NegotiationFailed? && done.notices == offerer.notices)
            && (tag != -1 ==>
                  && done.notices == offerer.notices + [done.state]
                  && ByTag(offerer.local, tag).Some? && ByTag(answer, tag).Some?
                  && (done.state.NegotiationSuccess? <==>
                        ByTag(offerer.local, tag).value.suite == ByTag(answer, tag).value.suite))
  {
    CommonTagIsCommon(offerer.local, answer);
  }

  /** After this program's own offer any answer settles the negotiation. It succeeds exactly if the answer
      is acceptable; a failure is announced exactly if the answer names some offered tag. */
  lemma ForeignAnswerIff(codec: LineCodec, keys: Suite -> string, media: seq<MediaAttribute>, at: seq<nat>)
    requires Parses(codec) && HeardAt(codec, media, at) && at != []
    ensures var offerer := MakeOffer(NEW_CONTEXT, keys).0;
            var answer := HeardThere(codec, media, at);
            var done := SetRemote(codec, offerer, media).0;
            && Final(done.state)
            && (done.state.NegotiationSuccess? <==> Acceptable(answer))
            && (done.notices == offerer.notices + [done.state] <==> exists t :: 1 <= t <= 4 && ByTag(answer, t).Some?)
  {
    var offerer := MakeOffer(NEW_CONTEXT, keys).0;
    var answer := HeardThere(codec, media, at);
    HeardInOrder(codec, media, at);
    OfferKeepsInv(NEW_CONTEXT, keys);
    ParsedArePlain(codec, CryptoLines(media));
    AnswerSettles(offerer, answer);
    var tag := FirstCommonTag(offerer.local, answer);
    OwnTags(keys, answer, if 1 <= tag <= 4 then tag else 1);
    if tag != -1 {
      AcceptableAt(answer, tag);
    }
  }

  /** Success is always announced; a failure is announced exactly when some tag was common to both
      lists. */
  lemma VerdictAnnouncedIff(c: Context)
    requires Inv(c.(remote := [])) && c.state.OfferLocal? && c.remote != [] && AllPlain(c.remote)
    ensures var done := Updated(c).0;
            && Final(done.state)
            && (done.notices == c.notices + [done.state] <==> FirstCommonTag(c.local, c.remote) != -1)
            && (done.state.NegotiationSuccess? ==> done.notices == c.notices + [NegotiationSuccess])
            && (done.notices == c.notices <==> FirstCommonTag(c.local, c.remote) == -1)
  {
  }

  // ----- The crypto context object -----

  function Tags(attrs: seq<Attr>): seq<int>
  {
    seq(|attrs|, i requires 0 <= i < |attrs| => attrs[i].tag)
  }

  class CryptoContext {
    var localCryptoAttributes: seq<Attr>
    var remoteCryptoAttributes: seq<Attr>
    var state: ContextState
    var negotiatedTag: int
    ghost var notices: seq<ContextState>

    ghost function View(): Context
      reads this
    {
      Context(state, localCryptoAttributes, remoteCryptoAttributes, negotiatedTag, notices)
    }

    constructor ()
      ensures View() == NEW_CONTEXT && Inv(View())
    {
      localCryptoAttributes, remoteCryptoAttributes := [], [];
      state, negotiatedTag, notices := Init, 0, [];
    }

    static method GetAllCryptoAttributes(media: seq<MediaAttribute>) returns (lines: seq<string>)
      ensures lines == CryptoLines(media)
    {
      lines := [];
      for i := 0 to |media|
        invariant lines + CryptoLines(media[i..]) == CryptoLines(media)
      {
        assert media[i..][1..] == media[i + 1..];
        if media[i].name == "crypto" {
          lines := lines + [CRYPTO_PREFIX + media[i].value];
        }
      }
    }

    static method ParseAttributes(codec: LineCodec, lines: seq<string>) returns (attrs: seq<Attr>)
      ensures attrs == ParseLines(codec, lines)
    {
      attrs := [];
      for i := 0 to |lines|
        invariant attrs + ParseLines(codec, lines[i..]) == ParseLines(codec, lines)
      {
        assert lines[i..][1..] == lines[i + 1..];
        var attr := codec.parse(lines[i]);
        if attr.Some? {
          attrs := attrs + [attr.value];
        }
      }
    }

    static method GetCryptoAttributeByTag(attrs: seq<Attr>, tag: int) returns (attr: Option<Attr>)
      ensures attr == ByTag(attrs, tag)
    {
      for i := 0 to |attrs|
        invariant ByTag(attrs, tag) == ByTag(attrs[i..], tag)
      {
        assert attrs[i..][1..] == attrs[i + 1..];
        if attrs[i].tag == tag {
          return Some(attrs[i]);
        }
      }
      return None;
    }

    static method FindCommonTag(attrs: seq<Attr>, others: seq<Attr>) returns (tag: int)
      ensures tag == FirstCommonTag(attrs, others)
    {
      var tagsOthers := Tags(others);
      for i := 0 to |attrs|
        invariant FirstCommonTag(attrs, others) == FirstCommonTag(attrs[i..], others)
      {
        assert attrs[i..][1..] == attrs[i + 1..];
        assert attrs[i].tag in tagsOthers <==> exists k :: 0 <= k < |others| && others[k].tag == attrs[i].tag by {
          if k :| 0 <= k < |others| && others[k].tag == attrs[i].tag {
            assert tagsOthers[k] == attrs[i].tag;
          }
        }
        if attrs[i].tag in tagsOthers {
          return attrs[i].tag;
        }
      }
      return -1;
    }

    method SetState(s: ContextState)
      modifies this
      ensures View() == Enter(old(View()), s)
    {
      if state != s {
        state := s;
        notices := notices + [s];
      }
    }

    method UpdateState() returns (changed: bool)
      requires AllPlain(localCryptoAttributes) && AllPlain(remoteCryptoAttributes)
      modifies this
      ensures (View(), changed) == Updated(old(View()))
    {
      if state == NegotiationFailed || state == NegotiationSuccess {
        return false;
      }
      if state == Init {
        if localCryptoAttributes != [] {
          SetState(OfferLocal);
          return true;
        }
        if remoteCryptoAttributes != [] {
          SetState(OfferRemote);
          return true;
        }
        return false;
      }
      var tag: int;
      if state == OfferLocal {
        tag := FindCommonTag(localCryptoAttributes, remoteCryptoAttributes);
      } else {
        tag := FindCommonTag(remoteCryptoAttributes, localCryptoAttributes);
      }
      if tag == -1 {
        state := NegotiationFailed;
        return true;
      }
      var localCrypto := GetCryptoAttributeByTag(localCryptoAttributes, tag);
      var remoteCrypto := GetCryptoAttributeByTag(remoteCryptoAttributes, tag);
      if localCrypto.value.suite != remoteCrypto.value.suite {
        SetState(NegotiationFailed);
        return true;
      }
      negotiatedTag := tag;
      SetState(NegotiationSuccess);
      return true;
    }

    method SetLocalMedia(codec: LineCodec, media: seq<MediaAttribute>) returns (ok: bool)
      requires Parses(codec) && Inv(View())
      modifies this
      ensures (View(), ok) == Do(codec, old(View()), OpSetLocal(media)) && Inv(View())
    {
      OperationsKeepInv(codec, View(), OpSetLocal(media));
      if localCryptoAttributes != [] {
        return false;
      }
      var lines := GetAllCryptoAttributes(media);
      if lines == [] {
        return false;
      }
      ParsedArePlain(codec, lines);
      localCryptoAttributes := ParseAttributes(codec, lines);
      if localCryptoAttributes == [] {
        return false;
      }
      ok := UpdateState();
    }

    method SetRemoteMedia(codec: LineCodec, media: seq<MediaAttribute>) returns (ok: bool)
      requires Parses(codec) && Inv(View())
      modifies this
      ensures (View(), ok) == Do(codec, old(View()), OpSetRemote(media)) && Inv(View())
    {
      OperationsKeepInv(codec, View(), OpSetRemote(media));
      if remoteCryptoAttributes != [] {
        return false;
      }
      var lines := GetAllCryptoAttributes(media);
      if lines == [] {
        return false;
      }
      ParsedArePlain(codec, lines);
      remoteCryptoAttributes := ParseAttributes(codec, lines);
      if remoteCryptoAttributes == [] {
        return false;
      }
      ok := UpdateState();
    }

    method GenerateOffer(keys: Suite -> string) returns (ok: bool)
      requires Inv(View())
      modifies this
      ensures (View(), ok) == MakeOffer(old(View()), keys) && Inv(View())
    {
      OfferKeepsInv(View(), keys);
      if state != Init {
        return false;
      }
      localCryptoAttributes := [Fresh(1, Aes256Sha80, keys)];
      localCryptoAttributes := localCryptoAttributes + [Fresh(2, Aes256Sha32, keys)];
      localCryptoAttributes := localCryptoAttributes + [Fresh(3, Aes128Sha80, keys)];
      localCryptoAttributes := localCryptoAttributes + [Fresh(4, Aes128Sha32, keys)];
      assert localCryptoAttributes == OwnOffer(keys);
      ok := UpdateState();
    }

    method GenerateAnswer(keys: Suite -> string) returns (ok: bool)
      requires Inv(View())
      modifies this
      ensures (View(), ok) == MakeAnswer(old(View()), keys) && Inv(View())
    {
      AnswerKeepsInv(View(), keys);
      if state != OfferRemote {
        return false;
      }
      var attr: Option<Attr> := None;
      var offer := remoteCryptoAttributes;
      for i := 0 to |offer|
        invariant attr == None && FirstSupported(offer) == FirstSupported(offer[i..])
        invariant unchanged(this)
      {
        assert offer[i..][1..] == offer[i + 1..];
        if Supported(offer[i]) {
          attr := Some(Fresh(offer[i].tag, offer[i].suite, keys));
          break;
        }
      }
      if attr == None {
        return false;
      }
      localCryptoAttributes := [attr.value];
      ok := UpdateState();
    }

    method GetLocalCrypto() returns (attr: Option<Attr>)
      ensures attr == LocalCrypto(View())
    {
      if state != NegotiationSuccess {
        return None;
      }
      attr := GetCryptoAttributeByTag(localCryptoAttributes, negotiatedTag);
    }

    method GetRemoteCrypto() returns (attr: Option<Attr>)
      ensures attr == RemoteCrypto(View())
    {
      if state != NegotiationSuccess {
        return None;
      }
      attr := GetCryptoAttributeByTag(remoteCryptoAttributes, negotiatedTag);
    }
  }
}
