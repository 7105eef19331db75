/** The streaming parser of the service provider database: a flat state machine over start and end
    events, proved to compute the recursive meaning of the element tree. */
module ServiceProviders {
  import opened CallStates

  datatype Attribute = Attribute(name: string, value: string)

  /** What a callee of an emergency number can be; a set of kinds is a flag word. */
  datatype Kind = Police | Ambulance | FireBrigade | MountainRescue

  datatype Number = Number(number: string, flags: set<Kind>)

  datatype Country = Country(code: string, numbers: seq<Number>)

  datatype ParserState =
    | TopLevel | InCountry | InEmergencyNumbers | InEmergencyNumber | InCallee | ParserError | ParserDone

  /** `aborted` stands for a failed assertion or the use of a missing country or number. */
  datatype Context = Context(
    state: ParserState,
    info: map<string, seq<Number>>,
    country: Option<Country>,
    number: Option<Number>,
    flags: set<Kind>,
    aborted: bool)

  const NEW_CONTEXT := Context(TopLevel, map[], None, None, {}, false)

  datatype Event = Start(name: string, attrs: seq<Attribute>) | End(name: string) | Characters

  /** A list of sibling nodes: each element holds the list of its children. */
  datatype Forest =
    | Nil
    | Text(next: Forest)
    | Elem(name: string, attrs: seq<Attribute>, children: Forest, next: Forest)

  function Flatten(f: Forest): seq<Event>
  {
    match f
    case Nil => []
    case Text(next) => [Characters] + Flatten(next)
    case Elem(name, attrs, children, next) => [Start(name, attrs)] + Flatten(children) + [End(name)] + Flatten(next)
  }

  // ----- Attributes -----

  /** The value of the first attribute of a name; an empty name ends the list. */
  function Lookup(attrs: seq<Attribute>, name: string): Option<string>
  {
    if attrs == [] || attrs[0].name == "" then None
    else if attrs[0].name == name then Some(attrs[0].value)
    else Lookup(attrs[1..], name)
  }

  predicate Supported(attrs: seq<Attribute>)
  {
    attrs == [] || attrs[0].name == ""
    || ((attrs[0].name == "format" ==> attrs[0].value == "2.0") && Supported(attrs[1..]))
  }

  function TypeToFlag(kind: string): set<Kind>
  {
    if kind == "police" then {Police}
    else if kind == "ambulance" then {Ambulance}
    else if kind == "fire-brigade" then {FireBrigade}
    else {}
  }

  function KindsOf(attrs: seq<Attribute>): set<Kind>
  {
    match Lookup(attrs, "type")
    case Some(kind) => TypeToFlag(kind)
    case None => {}
  }

  // ----- The state machine -----

  function Abort(c: Context): Context
  {
    c.(aborted := true)
  }

  function TopLevelStart(c: Context, name: string, attrs: seq<Attribute>): Context
  {
    if name == "serviceproviders" then
      if Supported(attrs) then c else c.(state := ParserError)
    else if name == "country" then
      var entered := c.(state := InCountry, country := None);
      match Lookup(attrs, "code")
      case Some(code) => if |code| == 2 then entered.(country := Some(Country(code, []))) else Abort(entered)
      case None => entered
    else c
  }

  function EmergencyNumbersStart(c: Context, name: string, attrs: seq<Attribute>): Context
  {
    if name != "emergency-number" then c
    else
      match Lookup(attrs, "number")
      case Some(number) =>
        if c.number.Some? then Abort(c) else c.(number := Some(Number(number, {})), state := InEmergencyNumber)
      case None => c.(state := InEmergencyNumber)
  }

  function EmergencyNumberStart(c: Context, name: string, attrs: seq<Attribute>): Context
  {
    if name != "callee" then c
    else if c.flags != {} then Abort(c)
    else c.(flags := KindsOf(attrs), state := InCallee)
  }

  function OnStart(c: Context, name: string, attrs: seq<Attribute>): Context
  {
    match c.state
    case TopLevel => TopLevelStart(c, name, attrs)
    case InCountry => if name == "emergency-numbers" then c.(state := InEmergencyNumbers) else c
    case InEmergencyNumbers => EmergencyNumbersStart(c, name, attrs)
    case InEmergencyNumber => EmergencyNumberStart(c, name, attrs)
    case _ => c
  }

  function CalleeEnd(c: Context): Context
  {
    match c.number
    case None => Abort(c)
    case Some(n) => c.(number := Some(n.(flags := n.flags + c.flags)), flags := {}, state := InEmergencyNumber)
  }

  /** A number without its attribute would be listed as a null pointer; this counts as a failure here. */
  function EmergencyNumberEnd(c: Context): Context
  {
    if c.number.None? || c.country.None? then Abort(c)
    else
      var country := c.country.value;
      c.(country := Some(country.(numbers := country.numbers + [c.number.value])), number := None,
         state := InEmergencyNumbers)
  }

  function CountryEnd(c: Context): Context
  {
    match c.country
    case None => Abort(c)
    case Some(country) => c.(info := Insert(c.info, country), country := None, state := TopLevel)
  }

  function OnEnd(c: Context, name: string): Context
  {
    match c.state
    case InCountry => if name == "country" then CountryEnd(c) else c
    case InEmergencyNumbers => if name == "emergency-numbers" then c.(state := InCountry) else c
    case InEmergencyNumber => if name == "emergency-number" then EmergencyNumberEnd(c) else c
    case InCallee => if name == "callee" then CalleeEnd(c) else c
    case _ => c
  }

  function Step(c: Context, e: Event): Context
  {
    if c.aborted then c
    else
      match e
      case Start(name, attrs) => OnStart(c, name, attrs)
      case End(name) => OnEnd(c, name)
      case Characters => c
  }

  function Parse(c: Context, events: seq<Event>): Context
    decreases |events|
  {
    if events == [] then c else Parse(Step(c, events[0]), events[1..])
  }

  // ----- The meaning of a tree -----

  /** Countries without emergency numbers are not entered. */
  function Insert(info: map<string, seq<Number>>, country: Country): map<string, seq<Number>>
  {
    if country.numbers == [] then info else info[country.code := country.numbers]
  }

  function InsertAll(info: map<string, seq<Number>>, countries: seq<Country>): map<string, seq<Number>>
    decreases |countries|
  {
    if countries == [] then info else InsertAll(Insert(info, countries[0]), countries[1..])
  }

  /** The kinds of all callees of a number; elements that are not callees are looked through. */
  function KindsIn(f: Forest): set<Kind>
  {
    match f
    case Nil => {}
    case Text(next) => KindsIn(next)
    case Elem(name, attrs, children, next) =>
      (if name == "callee" then KindsOf(attrs) else KindsIn(children)) + KindsIn(next)
  }

  function NumbersIn(f: Forest): seq<Number>
    requires NumbersOk(f)
  {
    match f
    case Nil => []
    case Text(next) => NumbersIn(next)
    case Elem(name, attrs, children, next) =>
      (if name == "emergency-number" then [Number(Lookup(attrs, "number").value, KindsIn(children))]
       else NumbersIn(children)) + NumbersIn(next)
  }

  function CountryNumbers(f: Forest): seq<Number>
    requires CountryOk(f)
  {
    match f
    case Nil => []
    case Text(next) => CountryNumbers(next)
    case Elem(name, _, children, next) =>
      (if name == "emergency-numbers" then NumbersIn(children) else CountryNumbers(children)) + CountryNumbers(next)
  }

  function CountriesIn(f: Forest): seq<Country>
    requires DocumentOk(f)
  {
    match f
    case Nil => []
    case Text(next) => CountriesIn(next)
    case Elem(name, attrs, children, next) =>
      (if name == "country" then [Country(Lookup(attrs, "code").value, CountryNumbers(children))]
       else CountriesIn(children)) + CountriesIn(next)
  }

  // ----- Well-formed documents -----

  predicate NoneNamed(f: Forest, name: string)
  {
    match f
    case Nil => true
    case Text(next) => NoneNamed(next, name)
    case Elem(n, _, children, next) => n != name && NoneNamed(children, name) && NoneNamed(next, name)
  }

  /** Inside a number: no number, and no callee within a callee. */
  predicate NumberOk(f: Forest)
  {
    match f
    case Nil => true
    case Text(next) => NumberOk(next)
    case Elem(name, _, children, next) =>
      && name != "emergency-number"
      && (if name == "callee" then NoneNamed(children, "callee") else NumberOk(children))
      && NumberOk(next)
  }

  predicate NumbersOk(f: Forest)
  {
    match f
    case Nil => true
    case Text(next) => NumbersOk(next)
    case Elem(name, attrs, children, next) =>
      && name != "emergency-numbers"
      && (if name == "emergency-number" then Lookup(attrs, "number").Some? && NumberOk(children)
          else NumbersOk(children))
      && NumbersOk(next)
  }

  predicate CountryOk(f: Forest)
  {
    match f
    case Nil => true
    case Text(next) => CountryOk(next)
    case Elem(name, _, children, next) =>
      && name != "country"
      && (if name == "emergency-numbers" then NumbersOk(children) else CountryOk(children))
      && CountryOk(next)
  }

  predicate ValidCode(attrs: seq<Attribute>)
  {
    Lookup(attrs, "code").Some? && |Lookup(attrs, "code").value| == 2
  }

  predicate DocumentOk(f: Forest)
  {
    match f
    case Nil => true
    case Text(next) => DocumentOk(next)
    case Elem(name, attrs, children, next) =>
      && (name == "serviceproviders" ==> Supported(attrs))
      && (if name == "country" then ValidCode(attrs) && CountryOk(children) else DocumentOk(children))
      && DocumentOk(next)
  }

  // ----- The machine computes the meaning -----

  lemma {:induction false} ParseTwo(c: Context, a: seq<Event>, b: seq<Event>)
    ensures Parse(c, a + b) == Parse(Parse(c, a), b)
    decreases |a|
  {
    if a == [] {
      assert a + b == b;
    } else {
      assert (a + b)[0] == a[0] && (a + b)[1..] == a[1..] + b;
      ParseTwo(Step(c, a[0]), a[1..], b);
    }
  }

  /** An element is parsed as its start, its children, its end and what follows. */
  lemma ParseElem(c: Context, f: Forest)
    requires f.Elem?
    ensures Parse(c, Flatten(f))
         == Parse(Step(Parse(Step(c, Start(f.name, f.attrs)), Flatten(f.children)), End(f.name)), Flatten(f.next))
  {
    var start, kids, end, rest := [Start(f.name, f.attrs)], Flatten(f.children), [End(f.name)], Flatten(f.next);
    ParseTwo(c, start + kids + end, rest);
    ParseTwo(c, start + kids, end);
    ParseTwo(c, start, kids);
    ParseOne(c, start[0]);
    ParseOne(Parse(c, start + kids), end[0]);
  }

  lemma ParseOne(c: Context, e: Event)
    ensures Parse(c, [e]) == Step(c, e)
  {
    assert [e][1..] == [];
    assert Parse(Step(c, e), []) == Step(c, e);
  }

  lemma ParseText(c: Context, f: Forest)
    requires f.Text?
    ensures Parse(c, Flatten(f)) == Parse(c, Flatten(f.next))
  {
    assert Flatten(f)[1..] == Flatten(f.next);
  }

  lemma {:induction false} CalleeIgnoresChildren(c: Context, f: Forest)
    requires !c.aborted && c.state.InCallee? && NoneNamed(f, "callee")
    ensures Parse(c, Flatten(f)) == c
  {
    match f
    case Nil =>
    case Text(next) =>
      ParseText(c, f);
      CalleeIgnoresChildren(c, next);
    case Elem(_, _, children, next) =>
      ParseElem(c, f);
      CalleeIgnoresChildren(c, children);
      CalleeIgnoresChildren(c, next);
  }

  lemma {:induction false} NumberCollectsKinds(c: Context, f: Forest)
    requires !c.aborted && c.state.InEmergencyNumber? && c.number.Some? && c.flags == {} && NumberOk(f)
    ensures var n := c.number.value;
            Parse(c, Flatten(f)) == c.(number := Some(n.(flags := n.flags + KindsIn(f))))
    decreases f
  {
    match f
    case Nil => assert c.number.value.flags + {} == c.number.value.flags;
    case Text(next) =>
      ParseText(c, f);
      NumberCollectsKinds(c, next);
    case Elem(name, attrs, children, next) =>
      ParseElem(c, f);
      var n := c.number.value;
      if name == "callee" {
        CalleeIgnoresChildren(c.(flags := KindsOf(attrs), state := InCallee), children);
        var d := c.(number := Some(n.(flags := n.flags + KindsOf(attrs))));
        NumberCollectsKinds(d, next);
        assert d.number.value.flags + KindsIn(next) == n.flags + KindsIn(f);
      } else {
        NumberCollectsKinds(c, children);
        var d := c.(number := Some(n.(flags := n.flags + KindsIn(children))));
        NumberCollectsKinds(d, next);
        assert d.number.value.flags + KindsIn(next) == n.flags + KindsIn(f);
      }
  }

  function WithNumbers(c: Context, numbers: seq<Number>): Context
    requires c.country.Some?
  {
    c.(country := Some(c.country.value.(numbers := c.country.value.numbers + numbers)))
  }

  lemma MoreNumbers(c: Context, a: seq<Number>, b: seq<Number>)
    requires c.country.Some?
    ensures WithNumbers(WithNumbers(c, a), b) == WithNumbers(c, a + b)
    ensures WithNumbers(c, []) == c
  {
    var had := c.country.value.numbers;
    assert had + a + b == had + (a + b);
    assert had + [] == had;
  }

  /** Between elements of a list of numbers nothing is half read. */
  predicate Resting(c: Context)
  {
    !c.aborted && c.country.Some? && c.number.None? && c.flags == {}
  }

  lemma {:induction false} ListCollectsNumbers(c: Context, f: Forest)
    requires Resting(c) && c.state.InEmergencyNumbers? && NumbersOk(f)
    ensures Parse(c, Flatten(f)) == WithNumbers(c, NumbersIn(f))
    decreases f
  {
    match f
    case Nil => MoreNumbers(c, [], []);
    case Text(next) =>
      ParseText(c, f);
      ListCollectsNumbers(c, next);
    case Elem(name, attrs, children, next) =>
      ParseElem(c, f);
      if name == "emergency-number" {
        var number := Lookup(attrs, "number").value;
        var d := c.(number := Some(Number(number, {})), state := InEmergencyNumber);
        NumberCollectsKinds(d, children);
        assert {} + KindsIn(children) == KindsIn(children);
        var one := [Number(number, KindsIn(children))];
        ListCollectsNumbers(WithNumbers(c, one), next);
        MoreNumbers(c, one, NumbersIn(next));
      } else {
        ListCollectsNumbers(c, children);
        ListCollectsNumbers(WithNumbers(c, NumbersIn(children)), next);
        MoreNumbers(c, NumbersIn(children), NumbersIn(next));
      }
  }

  lemma {:induction false} CountryCollectsNumbers(c: Context, f: Forest)
    requires Resting(c) && c.state.InCountry? && CountryOk(f)
    ensures Parse(c, Flatten(f)) == WithNumbers(c, CountryNumbers(f))
    decreases f
  {
    match f
    case Nil => MoreNumbers(c, [], []);
    case Text(next) =>
      ParseText(c, f);
      CountryCollectsNumbers(c, next);
    case Elem(name, _, children, next) =>
      ParseElem(c, f);
      if name == "emergency-numbers" {
        ListCollectsNumbers(c.(state := InEmergencyNumbers), children);
        CountryCollectsNumbers(WithNumbers(c, NumbersIn(children)), next);
        MoreNumbers(c, NumbersIn(children), CountryNumbers(next));
      } else {
        CountryCollectsNumbers(c, children);
        CountryCollectsNumbers(WithNumbers(c, CountryNumbers(children)), next);
        MoreNumbers(c, CountryNumbers(children), CountryNumbers(next));
      }
  }

  lemma {:induction false} InsertMore(info: map<string, seq<Number>>, a: seq<Country>, b: seq<Country>)
    ensures InsertAll(info, a + b) == InsertAll(InsertAll(info, a), b)
    decreases |a|
  {
    if a == [] {
      assert a + b == b;
    } else {
      assert (a + b)[1..] == a[1..] + b;
      InsertMore(Insert(info, a[0]), a[1..], b);
    }
  }

  /** Parsing a well-formed document aborts nowhere and enters its countries in document order. */
  lemma {:induction false} ParserComputesMeaning(c: Context, f: Forest)
    requires !c.aborted && c.state.TopLevel? && c.country.None? && c.number.None? && c.flags == {} && DocumentOk(f)
    ensures Parse(c, Flatten(f)) == c.(info := InsertAll(c.info, CountriesIn(f)))
    decreases f
  {
    match f
    case Nil =>
    case Text(next) =>
      ParseText(c, f);
      ParserComputesMeaning(c, next);
    case Elem(name, attrs, children, next) =>
      ParseElem(c, f);
      if name == "country" {
        var code := Lookup(attrs, "code").value;
        var d := c.(state := InCountry, country := Some(Country(code, [])));
        CountryCollectsNumbers(d, children);
        assert [] + CountryNumbers(children) == CountryNumbers(children);
        var one := [Country(code, CountryNumbers(children))];
        InsertOne(c.info, one[0]);
        ParserComputesMeaning(c.(info := InsertAll(c.info, one)), next);
        InsertMore(c.info, one, CountriesIn(next));
      } else {
        ParserComputesMeaning(c, children);
        ParserComputesMeaning(c.(info := InsertAll(c.info, CountriesIn(children))), next);
        InsertMore(c.info, CountriesIn(children), CountriesIn(next));
      }
  }

  lemma InsertOne(info: map<string, seq<Number>>, country: Country)
    ensures InsertAll(info, [country]) == Insert(info, country)
  {
    assert [country][1..] == [];
    assert InsertAll(Insert(info, country), []) == Insert(info, country);
  }

  ghost predicate DistinctCodes(countries: seq<Country>)
  {
    forall i, j :: 0 <= i < j < |countries| ==> countries[i].code != countries[j].code
  }

  lemma {:induction false} EnteredIff(info: map<string, seq<Number>>, countries: seq<Country>, code: string)
    requires DistinctCodes(countries) && forall i :: 0 <= i < |countries| ==> countries[i].code !in info
    ensures var all := InsertAll(info, countries);
            && (code in all <==> code in info || exists i :: 0 <= i < |countries| && countries[i].code == code
                                                             && countries[i].numbers != [])
            && (code in info ==> all[code] == info[code])
            && (forall i :: 0 <= i < |countries| && countries[i].code == code && countries[i].numbers != [] ==>
                  all[code] == countries[i].numbers)
    decreases |countries|
  {
    if countries != [] {
      var rest := countries[1..];
      assert forall i :: 0 <= i < |rest| ==> rest[i] == countries[i + 1];
      EnteredIff(Insert(info, countries[0]), rest, code);
      assert forall i :: 0 < i < |countries| ==> countries[i] == rest[i - 1];
    }
  }

  /** The table of a well-formed document with distinct codes: exactly the countries that have a number,
      each with its numbers in order, each number with the kinds of its callees. */
  lemma TableOfDocument(f: Forest)
    requires DocumentOk(f) && DistinctCodes(CountriesIn(f))
    ensures var c := Parse(NEW_CONTEXT, Flatten(f));
            var countries := CountriesIn(f);
            && !c.aborted && c.state.TopLevel?
            && (forall code :: code in c.info <==>
                  exists i :: 0 <= i < |countries| && countries[i].code == code && countries[i].numbers != [])
            && (forall i :: 0 <= i < |countries| && countries[i].numbers != [] ==>
                  countries[i].code in c.info && c.info[countries[i].code] == countries[i].numbers)
  {
    ParserComputesMeaning(NEW_CONTEXT, f);
    var countries := CountriesIn(f);
    var c := Parse(NEW_CONTEXT, Flatten(f));
    forall code
      ensures code in c.info <==>
              exists i :: 0 <= i < |countries| && countries[i].code == code && countries[i].numbers != []
    {
      EnteredIff(map[], countries, code);
    }
    forall i | 0 <= i < |countries| && countries[i].numbers != []
      ensures countries[i].code in c.info && c.info[countries[i].code] == countries[i].numbers
    {
      EnteredIff(map[], countries, countries[i].code);
    }
  }

  /** The first attribute of a name has this value. An attribute without a name ends the list. */
  ghost predicate FirstValue(attrs: seq<Attribute>, name: string, value: string)
  {
    exists k :: FirstNamed(attrs, name, k) && attrs[k].value == value
  }

  ghost predicate FirstNamed(attrs: seq<Attribute>, name: string, k: int)
  {
    && 0 <= k < |attrs| && attrs[k].name == name
    && forall j :: 0 <= j < k ==> attrs[j].name != name && attrs[j].name != ""
  }

  /** The attribute loops of the program look up the first attribute of a name. */
  lemma {:induction false} LookupIff(attrs: seq<Attribute>, name: string, value: string)
    requires name != ""
    ensures Lookup(attrs, name) == Some(value) <==> FirstValue(attrs, name, value)
  {
    if attrs != [] {
      var rest := attrs[1..];
      LookupIff(rest, name, value);
      if attrs[0].name == name {
        assert FirstNamed(attrs, name, 0);
      } else if attrs[0].name != "" {
        if k :| FirstNamed(rest, name, k) && rest[k].value == value {
          assert FirstNamed(attrs, name, k + 1);
        }
        if k :| FirstNamed(attrs, name, k) && attrs[k].value == value {
          assert FirstNamed(rest, name, k - 1) by {
            assert forall j :: 0 <= j < k - 1 ==> rest[j] == attrs[j + 1];
          }
        }
      }
    }
  }

  /** A format is supported unless some attribute, before one without a name, asks for another than 2.0. */
  lemma {:induction false} SupportedIff(attrs: seq<Attribute>)
    ensures Supported(attrs) <==>
            forall k :: 0 <= k < |attrs| && (forall j :: 0 <= j < k ==> attrs[j].name != "") ==>
              (attrs[k].name == "format" ==> attrs[k].value == "2.0")
  {
    if attrs != [] {
      SupportedIff(attrs[1..]);
      assert forall k :: 0 < k < |attrs| ==> attrs[k] == attrs[1..][k - 1];
      assert forall k :: 0 <= k < |attrs| - 1 ==> attrs[1..][k] == attrs[k + 1];
    }
  }

  /** How the database names the kinds; it has no name for mountain rescue. */
  ghost predicate Names(word: string, k: Kind)
  {
    match k
    case Police => word == "police"
    case Ambulance => word == "ambulance"
    case FireBrigade => word == "fire-brigade"
    case MountainRescue => false
  }

  lemma KindsAreNamed(attrs: seq<Attribute>, k: Kind)
    ensures k in KindsOf(attrs) <==> exists word :: Names(word, k) && FirstValue(attrs, "type", word)
  {
    match Lookup(attrs, "type") {
      case Some(word) =>
        LookupIff(attrs, "type", word);
        assert k in KindsOf(attrs) <==> Names(word, k);
        if other :| Names(other, k) && FirstValue(attrs, "type", other) {
          LookupIff(attrs, "type", other);
        }
      case None =>
        if word :| Names(word, k) && FirstValue(attrs, "type", word) {
          LookupIff(attrs, "type", word);
        }
    }
  }

  /** Some callee starts here whose type is the database's word for this kind. */
  ghost predicate CalleeOfKind(events: seq<Event>, k: Kind)
  {
    exists i :: 0 <= i < |events| && IsCallee(events[i], k)
  }

  ghost predicate IsCallee(e: Event, k: Kind)
  {
    e.Start? && e.name == "callee" && exists word :: Names(word, k) && FirstValue(e.attrs, "type", word)
  }

  /** A well-formed number is for the police, an ambulance or the fire brigade exactly if some callee in it, at
      whatever depth, has "police", "ambulance" or "fire-brigade" as its type; it is never for mountain rescue. */
  lemma {:induction false} FlagsAreCallees(f: Forest, k: Kind)
    requires NumberOk(f)
    ensures k in KindsIn(f) <==> CalleeOfKind(Flatten(f), k)
    ensures MountainRescue !in KindsIn(f)
  {
    match f
    case Nil =>
    case Text(next) =>
      FlagsAreCallees(next, k);
      CalleeInEither([Characters], Flatten(next), k);
    case Elem(name, attrs, children, next) =>
      FlagsAreCallees(next, k);
      CalleeInElem(f, k);
      if name == "callee" {
        NoCalleeStarts(children, k);
        KindsAreNamed(attrs, k);
        KindsAreNamed(attrs, MountainRescue);
      } else {
        FlagsAreCallees(children, k);
      }
  }

  lemma CalleeInElem(f: Forest, k: Kind)
    requires f.Elem?
    ensures CalleeOfKind(Flatten(f), k) <==>
            || IsCallee(Start(f.name, f.attrs), k)
            || CalleeOfKind(Flatten(f.children), k) || CalleeOfKind(Flatten(f.next), k)
  {
    var start, kids, end := [Start(f.name, f.attrs)], Flatten(f.children), [End(f.name)];
    CalleeInEither(start, kids, k);
    CalleeInEither(start + kids, end, k);
    CalleeInEither(start + kids + end, Flatten(f.next), k);
    assert start[0] == Start(f.name, f.attrs);
  }

  lemma CalleeInEither(a: seq<Event>, b: seq<Event>, k: Kind)
    ensures CalleeOfKind(a + b, k) <==> CalleeOfKind(a, k) || CalleeOfKind(b, k)
  {
    if i :| 0 <= i < |a| && IsCallee(a[i], k) {
      assert (a + b)[i] == a[i];
    }
    if i :| 0 <= i < |b| && IsCallee(b[i], k) {
      assert (a + b)[|a| + i] == b[i];
    }
  }

  lemma {:induction false} NoCalleeStarts(f: Forest, k: Kind)
    requires NoneNamed(f, "callee")
    ensures !CalleeOfKind(Flatten(f), k)
  {
    match f
    case Nil =>
    case Text(next) =>
      NoCalleeStarts(next, k);
      CalleeInEither([Characters], Flatten(next), k);
    case Elem(_, _, children, next) =>
      NoCalleeStarts(children, k);
      NoCalleeStarts(next, k);
      CalleeInElem(f, k);
  }

  // ----- Documents that are not well-formed -----

  lemma {:induction false} StuckStays(c: Context, events: seq<Event>)
    requires c.aborted || c.state.ParserError?
    ensures Parse(c, events) == c
  {
    if events != [] {
      StuckStays(c, events[1..]);
    }
  }

  /** A root element of another format yields an empty table, whatever it contains. */
  lemma WrongFormatYieldsNothing(f: Forest)
    requires f.Elem? && f.name == "serviceproviders" && !Supported(f.attrs)
    ensures Parse(NEW_CONTEXT, Flatten(f)) == NEW_CONTEXT.(state := ParserError)
  {
    ParseElem(NEW_CONTEXT, f);
    StuckStays(NEW_CONTEXT.(state := ParserError), Flatten(f.children));
    StuckStays(NEW_CONTEXT.(state := ParserError), Flatten(f.next));
  }

  /** The assertions of the program hold on any events whatsoever, well-formed or not: a number only starts when
      none is open, and a callee only when no kinds are left over. Nor is a country or a number left open where
      the next one starts. */
  ghost predicate AssertionsHold(c: Context)
  {
    && (c.state.InEmergencyNumbers? || c.state.InCountry? || c.state.TopLevel? ==> c.number.None?)
    && (c.state.TopLevel? ==> c.country.None?)
    && (c.flags != {} ==> c.state.InCallee?)
  }

  lemma {:induction false} AssertionsHoldAlways(c: Context, events: seq<Event>)
    requires AssertionsHold(c) && !c.aborted
    ensures var d := Parse(c, events); d.aborted || AssertionsHold(d)
    decreases |events|
  {
    if events != [] {
      var d := Step(c, events[0]);
      if d.aborted {
        StuckStays(d, events[1..]);
      } else {
        AssertionsHoldAlways(d, events[1..]);
      }
    }
  }

  /** A list of numbers, each of which may lack its own number. */
  predicate NumbersShape(f: Forest)
  {
    match f
    case Nil => true
    case Text(next) => NumbersShape(next)
    case Elem(name, _, children, next) =>
      && name != "emergency-numbers"
      && (if name == "emergency-number" then NumberOk(children) else NumbersShape(children))
      && NumbersShape(next)
  }

  predicate NumbersNamed(f: Forest)
  {
    match f
    case Nil => true
    case Text(next) => NumbersNamed(next)
    case Elem(name, attrs, children, next) =>
      && (if name == "emergency-number" then Lookup(attrs, "number").Some? else NumbersNamed(children))
      && NumbersNamed(next)
  }

  predicate CountryShape(f: Forest)
  {
    match f
    case Nil => true
    case Text(next) => CountryShape(next)
    case Elem(name, _, children, next) =>
      && name != "country"
      && (if name == "emergency-numbers" then NumbersShape(children) else CountryShape(children))
      && CountryShape(next)
  }

  predicate CountryNamed(f: Forest)
  {
    match f
    case Nil => true
    case Text(next) => CountryNamed(next)
    case Elem(name, _, children, next) =>
      && (if name == "emergency-numbers" then NumbersNamed(children) else CountryNamed(children))
      && CountryNamed(next)
  }

  lemma {:induction false} UnnamedContent(c: Context, f: Forest)
    requires !c.aborted && c.state.InEmergencyNumber? && c.number.None? && c.flags == {} && NumberOk(f)
    ensures Parse(c, Flatten(f)) == c || Parse(c, Flatten(f)).aborted
    decreases f
  {
    match f
    case Nil =>
    case Text(next) =>
      ParseText(c, f);
      UnnamedContent(c, next);
    case Elem(name, attrs, children, next) =>
      ParseElem(c, f);
      if name == "callee" {
        var d := c.(flags := KindsOf(attrs), state := InCallee);
        CalleeIgnoresChildren(d, children);
        StuckStays(Abort(d), Flatten(next));
      } else {
        UnnamedContent(c, children);
        if Parse(c, Flatten(children)).aborted {
          StuckStays(Parse(c, Flatten(children)), Flatten(next));
        } else {
          UnnamedContent(c, next);
        }
      }
  }

  /** A number that lacks its own number makes the parser fail. */
  lemma UnnamedNumberFails(c: Context, f: Forest)
    requires !c.aborted && c.number.None? && c.flags == {} && c.state.InEmergencyNumbers?
    requires f.Elem? && f.name == "emergency-number" && Lookup(f.attrs, "number").None? && NumberOk(f.children)
    ensures Parse(c, Flatten(f)).aborted
  {
    ParseElem(c, f);
    var d := c.(state := InEmergencyNumber);
    UnnamedContent(d, f.children);
    var e := Step(Parse(d, Flatten(f.children)), End(f.name));
    assert e.aborted;
    StuckStays(e, Flatten(f.next));
  }

  lemma {:induction false} ListFailsIff(c: Context, f: Forest)
    requires Resting(c) && c.state.InEmergencyNumbers? && NumbersShape(f)
    ensures var d := Parse(c, Flatten(f));
            (d.aborted <==> !NumbersNamed(f)) && (!d.aborted ==> Resting(d) && d.state.InEmergencyNumbers?)
    decreases f
  {
    match f
    case Nil =>
    case Text(next) =>
      ParseText(c, f);
      ListFailsIff(c, next);
    case Elem(name, attrs, children, next) =>
      ParseElem(c, f);
      var d := Step(Parse(Step(c, Start(name, attrs)), Flatten(children)), End(name));
      if name == "emergency-number" {
        if Lookup(attrs, "number").None? {
          UnnamedNumberFails(c, f);
        } else {
          NumberCollectsKinds(c.(number := Some(Number(Lookup(attrs, "number").value, {})), state := InEmergencyNumber),
                              children);
          ListFailsIff(d, next);
        }
      } else {
        ListFailsIff(c, children);
        if d.aborted {
          StuckStays(d, Flatten(next));
        } else {
          ListFailsIff(d, next);
        }
      }
  }

  lemma {:induction false} ContentFailsIff(c: Context, f: Forest)
    requires Resting(c) && c.state.InCountry? && CountryShape(f)
    ensures var d := Parse(c, Flatten(f));
            (d.aborted <==> !CountryNamed(f)) && (!d.aborted ==> Resting(d) && d.state.InCountry?)
    decreases f
  {
    match f
    case Nil =>
    case Text(next) =>
      ParseText(c, f);
      ContentFailsIff(c, next);
    case Elem(name, attrs, children, next) =>
      ParseElem(c, f);
      var d := Step(Parse(Step(c, Start(name, attrs)), Flatten(children)), End(name));
      if name == "emergency-numbers" {
        ListFailsIff(c.(state := InEmergencyNumbers), children);
      } else {
        ContentFailsIff(c, children);
      }
      if d.aborted {
        StuckStays(d, Flatten(next));
      } else {
        ContentFailsIff(d, next);
      }
  }

  lemma {:induction false} NumbersNeedCountry(c: Context, f: Forest)
    requires !c.aborted && c.country.None? && c.number.None? && c.flags == {}
    requires c.state.InEmergencyNumbers? && NumbersShape(f)
    ensures Parse(c, Flatten(f)) == c || Parse(c, Flatten(f)).aborted
    decreases f
  {
    match f
    case Nil =>
    case Text(next) =>
      ParseText(c, f);
      NumbersNeedCountry(c, next);
    case Elem(name, attrs, children, next) =>
      ParseElem(c, f);
      if name == "emergency-number" {
        if Lookup(attrs, "number").None? {
          UnnamedNumberFails(c, f);
        } else {
          var d := c.(number := Some(Number(Lookup(attrs, "number").value, {})), state := InEmergencyNumber);
          NumberCollectsKinds(d, children);
          var e := Abort(d.(number := Some(Number(d.number.value.number, {} + KindsIn(children)))));
          StuckStays(e, Flatten(next));
        }
      } else {
        NumbersNeedCountry(c, children);
        if Parse(c, Flatten(children)).aborted {
          StuckStays(Parse(c, Flatten(children)), Flatten(next));
        } else {
          NumbersNeedCountry(c, next);
        }
      }
  }

  lemma {:induction false} ContentNeedsCountry(c: Context, f: Forest)
    requires !c.aborted && c.country.None? && c.number.None? && c.flags == {} && c.state.InCountry? && CountryShape(f)
    ensures Parse(c, Flatten(f)) == c || Parse(c, Flatten(f)).aborted
    decreases f
  {
    match f
    case Nil =>
    case Text(next) =>
      ParseText(c, f);
      ContentNeedsCountry(c, next);
    case Elem(name, _, children, next) =>
      ParseElem(c, f);
      if name == "emergency-numbers" {
        NumbersNeedCountry(c.(state := InEmergencyNumbers), children);
      } else {
        ContentNeedsCountry(c, children);
      }
      var d := if name == "emergency-numbers" then Parse(c.(state := InEmergencyNumbers), Flatten(children))
               else Parse(c, Flatten(children));
      if d.aborted {
        StuckStays(d, Flatten(next));
      } else {
        ContentNeedsCountry(c, next);
      }
  }

  /** A document in which the content of every country is well-formed, whatever the attributes of countries and
      numbers. */
  predicate ContentOk(f: Forest)
  {
    match f
    case Nil => true
    case Text(next) => ContentOk(next)
    case Elem(name, attrs, children, next) =>
      && (name == "serviceproviders" ==> Supported(attrs))
      && (if name == "country" then CountryShape(children) else ContentOk(children))
      && ContentOk(next)
  }

  /** Some country has no code, or one that is not of two letters, or a number without its own number. */
  predicate SomeFault(f: Forest)
  {
    match f
    case Nil => false
    case Text(next) => SomeFault(next)
    case Elem(name, attrs, children, next) =>
      || (if name == "country" then !ValidCode(attrs) || !CountryNamed(children) else SomeFault(children))
      || SomeFault(next)
  }

  /** Outside any country, with nothing half read. */
  predicate AtTop(c: Context)
  {
    !c.aborted && c.state.TopLevel? && c.country.None? && c.number.None? && c.flags == {}
  }

  lemma OneCountryFailsIff(c: Context, f: Forest)
    requires AtTop(c) && f.Elem? && f.name == "country" && CountryShape(f.children)
    ensures var d := Step(Parse(Step(c, Start(f.name, f.attrs)), Flatten(f.children)), End(f.name));
            (d.aborted <==> !ValidCode(f.attrs) || !CountryNamed(f.children)) && (!d.aborted ==> AtTop(d))
  {
    var entered := Step(c, Start(f.name, f.attrs));
    if ValidCode(f.attrs) {
      ContentFailsIff(entered, f.children);
    } else if Lookup(f.attrs, "code").Some? {
      StuckStays(entered, Flatten(f.children));
    } else {
      ContentNeedsCountry(entered, f.children);
    }
  }

  /** Over a whole document whose countries have well-formed content, the parser fails exactly if some
      country's code is missing or not of two letters, or some number in a country lacks its own number. */
  lemma {:induction false} DocumentFailsIff(c: Context, f: Forest)
    requires AtTop(c) && ContentOk(f)
    ensures Parse(c, Flatten(f)).aborted <==> SomeFault(f)
    ensures !Parse(c, Flatten(f)).aborted ==> AtTop(Parse(c, Flatten(f)))
    decreases f
  {
    match f
    case Nil =>
    case Text(next) =>
      ParseText(c, f);
      DocumentFailsIff(c, next);
    case Elem(name, attrs, children, next) =>
      ParseElem(c, f);
      var d := Step(Parse(Step(c, Start(name, attrs)), Flatten(children)), End(name));
      if name == "country" {
        OneCountryFailsIff(c, f);
      } else {
        DocumentFailsIff(c, children);
        assert Step(c, Start(name, attrs)) == c;
      }
      if d.aborted {
        StuckStays(d, Flatten(next));
      } else {
        DocumentFailsIff(d, next);
      }
  }

  /** Content of a country that is well-formed but for one country nested in it, at whatever depth outside
      the lists of numbers. */
  predicate OneNested(f: Forest)
  {
    match f
    case Nil => false
    case Text(next) => OneNested(next)
    case Elem(name, _, children, next) =>
      if name == "country" then CountryOk(children) && Stray(next)
      else if name == "emergency-numbers" then NumbersOk(children) && OneNested(next)
      else if OneNested(children) then Stray(next)
      else CountryOk(children) && OneNested(next)
  }

  /** Content that follows the nested country, and so is read outside any country. */
  predicate Stray(f: Forest)
  {
    CountryOk(f) && NoneNamed(f, "country") && NoneNamed(f, "serviceproviders")
  }

  /** The numbers up to the end of the nested country, its own among them. */
  function NumbersBefore(f: Forest): seq<Number>
    requires OneNested(f)
  {
    match f
    case Text(next) => NumbersBefore(next)
    case Elem(name, _, children, next) =>
      if name == "country" then CountryNumbers(children)
      else if name == "emergency-numbers" then NumbersIn(children) + NumbersBefore(next)
      else if OneNested(children) then NumbersBefore(children)
      else CountryNumbers(children) + NumbersBefore(next)
  }

  /** The numbers after it. */
  function NumbersAfter(f: Forest): seq<Number>
    requires OneNested(f)
  {
    match f
    case Text(next) => NumbersAfter(next)
    case Elem(name, _, children, next) =>
      if name == "country" then CountryNumbers(next)
      else if name == "emergency-numbers" then NumbersAfter(next)
      else if OneNested(children) then NumbersAfter(children) + CountryNumbers(next)
      else NumbersAfter(next)
  }

  lemma {:induction false} StrayIsIgnored(c: Context, f: Forest)
    requires !c.aborted && c.state.TopLevel?
    requires NoneNamed(f, "country") && NoneNamed(f, "serviceproviders")
    ensures Parse(c, Flatten(f)) == c
  {
    match f
    case Nil =>
    case Text(next) =>
      ParseText(c, f);
      StrayIsIgnored(c, next);
    case Elem(_, _, children, next) =>
      ParseElem(c, f);
      StrayIsIgnored(c, children);
      StrayIsIgnored(c, next);
  }

  /** The end of the nested country ends the outer one. */
  lemma {:induction false} NestedEndsOuter(c: Context, f: Forest)
    requires Resting(c) && c.state.InCountry? && OneNested(f)
    ensures Parse(c, Flatten(f)) == CountryEnd(WithNumbers(c, NumbersBefore(f)))
    decreases f
  {
    match f
    case Text(next) =>
      ParseText(c, f);
      NestedEndsOuter(c, next);
    case Elem(name, _, children, next) =>
      ParseElem(c, f);
      if name == "country" {
        CountryCollectsNumbers(c, children);
        StrayIsIgnored(CountryEnd(WithNumbers(c, CountryNumbers(children))), next);
      } else if name == "emergency-numbers" {
        ListCollectsNumbers(c.(state := InEmergencyNumbers), children);
        NestedEndsOuter(WithNumbers(c, NumbersIn(children)), next);
        MoreNumbers(c, NumbersIn(children), NumbersBefore(next));
      } else if OneNested(children) {
        NestedEndsOuter(c, children);
        StrayIsIgnored(CountryEnd(WithNumbers(c, NumbersBefore(children))), next);
      } else {
        CountryCollectsNumbers(c, children);
        NestedEndsOuter(WithNumbers(c, CountryNumbers(children)), next);
        MoreNumbers(c, CountryNumbers(children), NumbersBefore(next));
      }
  }

  /** A country with a country nested in it enters the numbers up to the end of the nested one; it enters
      all its numbers exactly if none follows. */
  lemma NestedCountryKeepsAllIff(attrs: seq<Attribute>, content: Forest)
    requires ValidCode(attrs) && OneNested(content)
    ensures var code := Lookup(attrs, "code").value;
            var c := Parse(NEW_CONTEXT, Flatten(Elem("country", attrs, content, Nil)));
            var before, after := NumbersBefore(content), NumbersAfter(content);
            && c == NEW_CONTEXT.(info := Insert(map[], Country(code, before)))
            && (c.info == Insert(map[], Country(code, before + after)) <==> after == [])
  {
    var code := Lookup(attrs, "code").value;
    var f := Elem("country", attrs, content, Nil);
    var d := NEW_CONTEXT.(state := InCountry, country := Some(Country(code, [])));
    var before, after := NumbersBefore(content), NumbersAfter(content);
    ParseElem(NEW_CONTEXT, f);
    NestedEndsOuter(d, content);
    assert [] + before == before;
    if after == [] {
      assert before + after == before;
    } else {
      assert |before + after| > |before|;
      assert code in Insert(map[], Country(code, before + after));
      assert Insert(map[], Country(code, before + after))[code] == before + after;
    }
  }

  // ----- The parse context -----

  class ParseContext {
    var state: ParserState
    var info: map<string, seq<Number>>
    var currentData: Option<Country>
    var currentNumber: Option<Number>
    var currentFlags: set<Kind>
    ghost var aborted: bool

    ghost function View(): Context
      reads this
    {
      Context(state, info, currentData, currentNumber, currentFlags, aborted)
    }

    constructor ()
      ensures View() == NEW_CONTEXT
    {
      state, info, currentData, currentNumber, currentFlags, aborted := TopLevel, map[], None, None, {}, false;
    }

    static method FindAttribute(attrs: seq<Attribute>, name: string) returns (value: Option<string>)
      ensures value == Lookup(attrs, name)
    {
      var i := 0;
      while i < |attrs| && attrs[i].name != ""
        invariant 0 <= i <= |attrs| && Lookup(attrs, name) == Lookup(attrs[i..], name)
      {
        assert attrs[i..][1..] == attrs[i + 1..];
        if attrs[i].name == name {
          return Some(attrs[i].value);
        }
        i := i + 1;
      }
      return None;
    }

    method ToplevelStart(name: string, attrs: seq<Attribute>)
      requires state == TopLevel && !aborted
      modifies this
      ensures View() == TopLevelStart(old(View()), name, attrs)
    {
      if name == "serviceproviders" {
        var i := 0;
        while i < |attrs| && attrs[i].name != ""
          invariant 0 <= i <= |attrs| && Supported(attrs) == Supported(attrs[i..])
          invariant unchanged(this)
        {
          assert attrs[i..][1..] == attrs[i + 1..];
          if attrs[i].name == "format" && attrs[i].value != "2.0" {
            state := ParserError;
            break;
          }
          i := i + 1;
        }
      } else if name == "country" {
        state := InCountry;
        currentData := None;
        var code := FindAttribute(attrs, "code");
        if code.Some? {
          if |code.value| == 2 {
            currentData := Some(Country(code.value, []));
          } else {
            aborted := true;
          }
        }
      }
    }

    method NumbersStart(name: string, attrs: seq<Attribute>)
      requires state == InEmergencyNumbers && !aborted
      modifies this
      ensures View() == EmergencyNumbersStart(old(View()), name, attrs)
    {
      if name == "emergency-number" {
        var number := FindAttribute(attrs, "number");
        if number.Some? {
          if currentNumber.Some? {
            aborted := true;
            return;
          }
          currentNumber := Some(Number(number.value, {}));
        }
        state := InEmergencyNumber;
      }
    }

    method NumberStart(name: string, attrs: seq<Attribute>)
      requires state == InEmergencyNumber && !aborted
      modifies this
      ensures View() == EmergencyNumberStart(old(View()), name, attrs)
    {
      if name == "callee" {
        if currentFlags != {} {
          aborted := true;
          return;
        }
        var kind := FindAttribute(attrs, "type");
        if kind.Some? {
          currentFlags := TypeToFlag(kind.value);
        }
        state := InCallee;
      }
    }

    method StartElement(name: string, attrs: seq<Attribute>)
      requires !aborted
      modifies this
      ensures View() == Step(old(View()), Start(name, attrs))
    {
      match state
      case TopLevel => ToplevelStart(name, attrs);
      case InCountry =>
        if name == "emergency-numbers" {
          state := InEmergencyNumbers;
        }
      case InEmergencyNumbers => NumbersStart(name, attrs);
      case InEmergencyNumber => NumberStart(name, attrs);
      case _ =>
    }

    method EndElement(name: string)
      requires !aborted
      modifies this
      ensures View() == Step(old(View()), End(name))
    {
      match state
      case InCountry =>
        if name == "country" {
          if currentData.None? {
            aborted := true;
            return;
          }
          if |currentData.value.numbers| > 0 {
            info := info[currentData.value.code := currentData.value.numbers];
          }
          currentData := None;
          state := TopLevel;
        }
      case InEmergencyNumbers =>
        if name == "emergency-numbers" {
          state := InCountry;
        }
      case InEmergencyNumber =>
        if name == "emergency-number" {
          if currentData.None? || currentNumber.None? {
            aborted := true;
            return;
          }
          currentData := Some(currentData.value.(numbers := currentData.value.numbers + [currentNumber.value]));
          currentNumber := None;
          state := InEmergencyNumbers;
        }
      case InCallee =>
        if name == "callee" {
          if currentNumber.None? {
            aborted := true;
            return;
          }
          currentNumber := Some(currentNumber.value.(flags := currentNumber.value.flags + currentFlags));
          currentFlags := {};
          state := InEmergencyNumber;
        }
      case _ =>
    }
  }
}
