/** The emergency number table, which merges the database with built-in fallbacks, and the list of
    emergency contacts made from it and from the origins. */
module EmergencyContacts {
  import opened CallStates
  import opened ServiceProviders

  /** One entry of a country: a built-in slot that is not set has no number. */
  datatype Slot = Slot(number: Option<string>, flags: set<Kind>)

  datatype Builtin = Builtin(code: string, slots: seq<Slot>)

  type Table = map<string, seq<Slot>>

  // ----- The table -----

  function Slots(numbers: seq<Number>): seq<Slot>
  {
    seq(|numbers|, i requires 0 <= i < |numbers| => Slot(Some(numbers[i].number), numbers[i].flags))
  }

  function FromDatabase(info: map<string, seq<Number>>): Table
  {
    map code | code in info :: Slots(info[code])
  }

  function Merged(table: Table, builtins: seq<Builtin>): Table
    decreases |builtins|
  {
    if builtins == [] then table
    else
      var first := builtins[0];
      Merged(if first.code in table then table else table[first.code := first.slots], builtins[1..])
  }

  /** A country of the database keeps its entry; any other country has the entry of the first built-in
      of its code. */
  lemma {:induction false} DatabaseOverridesBuiltins(table: Table, builtins: seq<Builtin>, code: string)
    ensures var merged := Merged(table, builtins);
            && (code in merged <==> code in table || exists i :: 0 <= i < |builtins| && builtins[i].code == code)
            && (code in table ==> merged[code] == table[code])
            && (forall i :: code !in table && 0 <= i < |builtins| && builtins[i].code == code
                            && (forall j :: 0 <= j < i ==> builtins[j].code != code) ==>
                  merged[code] == builtins[i].slots)
    decreases |builtins|
  {
    if builtins != [] {
      var rest := builtins[1..];
      var first := builtins[0];
      assert forall i :: 0 <= i < |rest| ==> rest[i] == builtins[i + 1];
      assert forall i :: 0 < i < |builtins| ==> builtins[i] == rest[i - 1];
      var next := if first.code in table then table else table[first.code := first.slots];
      DatabaseOverridesBuiltins(next, rest, code);
      forall i | code !in table && 0 <= i < |builtins| && builtins[i].code == code
                 && forall j :: 0 <= j < i ==> builtins[j].code != code
        ensures Merged(table, builtins)[code] == builtins[i].slots
      {
        if i > 0 {
          assert builtins[0].code != code;
          assert forall j :: 0 <= j < i - 1 ==> rest[j].code == builtins[j + 1].code;
          assert rest[i - 1].code == code;
        }
      }
    }
  }

  function Lower(c: char): char
  {
    if 'A' <= c <= 'Z' then c - 'A' + 'a' else c
  }

  function LowerCase(s: string): string
  {
    seq(|s|, i requires 0 <= i < |s| => Lower(s[i]))
  }

  function Entry(table: Table, code: Option<string>): Option<seq<Slot>>
  {
    match code
    case None => None
    case Some(c) => if LowerCase(c) in table then Some(table[LowerCase(c)]) else None
  }

  /** A null-terminated list ends at its first null entry. */
  function BeforeNull(slots: seq<Slot>): seq<string>
  {
    if slots == [] || slots[0].number.None? then [] else [slots[0].number.value] + BeforeNull(slots[1..])
  }

  function NumbersOf(table: Table, code: Option<string>): seq<string>
  {
    match Entry(table, code)
    case None => []
    case Some(slots) => BeforeNull(slots)
  }

  /** No set slot follows one that is not set. */
  ghost predicate Packed(slots: seq<Slot>)
  {
    forall i, j :: 0 <= i < j < |slots| && slots[j].number.Some? ==> slots[i].number.Some?
  }

  function SetNumbers(slots: seq<Slot>): seq<string>
  {
    if slots == [] then []
    else (if slots[0].number.Some? then [slots[0].number.value] else []) + SetNumbers(slots[1..])
  }

  /** Unset slots never appear; every set slot does exactly when none of them follows an unset one. */
  lemma {:induction false} UnsetSlotsNeverAppear(slots: seq<Slot>)
    ensures BeforeNull(slots) <= SetNumbers(slots)
    ensures BeforeNull(slots) == SetNumbers(slots) <==> Packed(slots)
  {
    if slots != [] {
      var rest := slots[1..];
      assert forall i :: 0 <= i < |rest| ==> rest[i] == slots[i + 1];
      UnsetSlotsNeverAppear(rest);
      if slots[0].number.Some? {
        assert Packed(slots) <==> Packed(rest) by {
          assert forall i :: 0 < i < |slots| ==> slots[i] == rest[i - 1];
        }
      } else {
        NoneSetIff(rest);
        assert Packed(slots) <==> forall j :: 0 < j < |slots| ==> slots[j].number.None?;
        assert (forall j :: 0 < j < |slots| ==> slots[j].number.None?)
           <==> (forall j :: 0 <= j < |rest| ==> rest[j].number.None?) by {
          assert forall i :: 0 < i < |slots| ==> slots[i] == rest[i - 1];
        }
      }
    }
  }

  lemma {:induction false} NoneSetIff(slots: seq<Slot>)
    ensures SetNumbers(slots) == [] <==> forall j :: 0 <= j < |slots| ==> slots[j].number.None?
  {
    if slots != [] {
      NoneSetIff(slots[1..]);
      assert forall i :: 0 < i < |slots| ==> slots[i] == slots[1..][i - 1];
    }
  }

  lemma {:induction false} DatabaseNumbersAppear(numbers: seq<Number>)
    ensures |BeforeNull(Slots(numbers))| == |numbers|
    ensures forall i :: 0 <= i < |numbers| ==> BeforeNull(Slots(numbers))[i] == numbers[i].number
  {
    if numbers != [] {
      assert Slots(numbers)[1..] == Slots(numbers[1..]);
      DatabaseNumbersAppear(numbers[1..]);
    }
  }

  /** A table made from a database and built-ins offers, for a country of the database whose code is in lower
      case, exactly that country's numbers in order, however the code is written and whatever the
      built-ins say. */
  lemma DatabaseNumbersOffered(info: map<string, seq<Number>>, builtins: seq<Builtin>, code: string)
    requires LowerCase(code) in info
    ensures var numbers := NumbersOf(Merged(FromDatabase(info), builtins), Some(code));
            && |numbers| == |info[LowerCase(code)]|
            && forall i :: 0 <= i < |numbers| ==> numbers[i] == info[LowerCase(code)][i].number
  {
    DatabaseOverridesBuiltins(FromDatabase(info), builtins, LowerCase(code));
    DatabaseNumbersAppear(info[LowerCase(code)]);
  }

  /** From document to offer: a country of a well-formed document with distinct codes, its own in lower case,
      offers exactly its numbers in document order, whatever the built-ins say. */
  lemma CountryOffersItsNumbers(f: Forest, k: nat, builtins: seq<Builtin>, code: string)
    requires DocumentOk(f) && DistinctCodes(CountriesIn(f)) && k < |CountriesIn(f)|
    requires CountriesIn(f)[k].numbers != [] && LowerCase(code) == CountriesIn(f)[k].code
    ensures var table := Merged(FromDatabase(Parse(NEW_CONTEXT, Flatten(f)).info), builtins);
            var numbers := NumbersOf(table, Some(code));
            && |numbers| == |CountriesIn(f)[k].numbers|
            && forall i :: 0 <= i < |numbers| ==> numbers[i] == CountriesIn(f)[k].numbers[i].number
  {
    TableOfDocument(f);
    DatabaseNumbersOffered(Parse(NEW_CONTEXT, Flatten(f)).info, builtins, code);
  }

  /** A code in small letters is found however it is written: letter by letter the same, or its capital. */
  lemma WrittenAsIff(asked: string, code: string)
    ensures LowerCase(asked) == code <==>
            && |asked| == |code|
            && forall i :: 0 <= i < |code| ==>
                 if 'A' <= asked[i] <= 'Z' then code[i] == asked[i] - 'A' + 'a' else code[i] == asked[i]
  {
    if |asked| == |code| {
      assert forall i :: 0 <= i < |code| ==> (LowerCase(asked)[i] == code[i] <==> Lower(asked[i]) == code[i]);
    }
  }

  /** An entry of the table is found under some code exactly if its own code has no capital letter; otherwise its
      numbers are never offered. Without a code nothing is. */
  lemma EntryFoundIff(table: Table, code: string)
    requires code in table
    ensures (exists asked :: LowerCase(asked) == code) <==> forall i :: 0 <= i < |code| ==> !('A' <= code[i] <= 'Z')
    ensures (forall i :: 0 <= i < |code| ==> !('A' <= code[i] <= 'Z')) ==> Entry(table, Some(code)) == Some(table[code])
    ensures NumbersOf(table, None) == []
  {
    if asked :| LowerCase(asked) == code {
      WrittenAsIff(asked, code);
    }
    WrittenAsIff(code, code);
  }

  // ----- Names -----

  function Labels(flags: set<Kind>): seq<string>
  {
    (if Police in flags then ["Police"] else []) + (if Ambulance in flags then ["Ambulance"] else [])
    + (if FireBrigade in flags then ["Fire Brigade"] else [])
    + (if MountainRescue in flags then ["Mountain Rescue"] else [])
  }

  function Join(parts: seq<string>): string
  {
    if parts == [] then "" else if |parts| == 1 then parts[0] else parts[0] + ", " + Join(parts[1..])
  }

  function FlagsToString(flags: set<Kind>): Option<string>
  {
    if Labels(flags) == [] then None else Some(Join(Labels(flags)))
  }

  /** A name is missing exactly if no flag is set, and its parts tell which flags are. */
  lemma LabelsTellFlags(flags: set<Kind>)
    ensures FlagsToString(flags).None? <==> flags == {}
    ensures "Police" in Labels(flags) <==> Police in flags
    ensures "Ambulance" in Labels(flags) <==> Ambulance in flags
    ensures "Fire Brigade" in Labels(flags) <==> FireBrigade in flags
    ensures "Mountain Rescue" in Labels(flags) <==> MountainRescue in flags
  {
    assert |"Police"| == 6 && |"Ambulance"| == 9 && |"Fire Brigade"| == 12 && |"Mountain Rescue"| == 15;
    var police := if Police in flags then ["Police"] else [];
    var ambulance := if Ambulance in flags then ["Ambulance"] else [];
    var fire := if FireBrigade in flags then ["Fire Brigade"] else [];
    var mountain := if MountainRescue in flags then ["Mountain Rescue"] else [];
    assert Labels(flags) == police + ambulance + fire + mountain;
    assert forall s :: s in Labels(flags) <==> s in police || s in ambulance || s in fire || s in mountain;
    if flags != {} {
      var k :| k in flags;
      match k
      case Police => assert "Police" in police;
      case Ambulance => assert "Ambulance" in ambulance;
      case FireBrigade => assert "Fire Brigade" in fire;
      case MountainRescue => assert "Mountain Rescue" in mountain;
    }
  }

  /** The name made from the flags of the first slot that has the number. */
  function NameIn(slots: seq<Slot>, number: string): Option<string>
  {
    if slots == [] then None
    else if slots[0].number == Some(number) then FlagsToString(slots[0].flags)
    else NameIn(slots[1..], number)
  }

  function TypeName(table: Table, number: string, code: Option<string>): Option<string>
  {
    match Entry(table, code)
    case None => None
    case Some(slots) => NameIn(slots, number)
  }

  /** How names are put together, in the order police, ambulance, fire brigade, mountain rescue. */
  lemma NamesAreJoined(a: string, parts: seq<string>)
    ensures Join([a]) == a && (parts != [] ==> Join([a] + parts) == a + ", " + Join(parts))
    ensures FlagsToString({Police}) == Some("Police") && FlagsToString({Ambulance}) == Some("Ambulance")
    ensures FlagsToString({FireBrigade}) == Some("Fire Brigade")
    ensures FlagsToString({MountainRescue}) == Some("Mountain Rescue")
    ensures Labels({Police, Ambulance, FireBrigade, MountainRescue}) ==
            ["Police", "Ambulance", "Fire Brigade", "Mountain Rescue"]
  {
    assert ([a] + parts)[1..] == parts;
  }

  /** The first slot with a number is at `k`; at the end of the list if there is none. */
  ghost predicate FirstSlot(slots: seq<Slot>, number: string, k: nat)
  {
    && k <= |slots| && (forall j :: 0 <= j < k ==> slots[j].number != Some(number))
    && (k < |slots| ==> slots[k].number == Some(number))
  }

  lemma {:induction false} NameOfSlot(slots: seq<Slot>, number: string, k: nat)
    requires FirstSlot(slots, number, k)
    ensures NameIn(slots, number)
         == if k < |slots| && slots[k].flags != {} then Some(Join(Labels(slots[k].flags))) else None
  {
    if slots == [] {
    } else if k == 0 {
      LabelsTellFlags(slots[0].flags);
    } else {
      NameOfSlot(slots[1..], number, k - 1);
    }
  }

  // ----- Contacts -----

  datatype ContactSource = SourceUnknown | SourceLocation

  datatype Contact = Contact(number: string, name: string, source: ContactSource)

  /** An origin without emergency numbers of its own has none to list. */
  datatype Origin = Origin(networkCode: Option<string>, countryCode: Option<string>, numbers: seq<string>)

  function MakeContact(table: Table, number: string, code: Option<string>, source: ContactSource): Contact
  {
    var name := TypeName(table, number, code);
    Contact(number, if name.Some? then name.value else number, source)
  }

  function Contacts(table: Table, numbers: seq<string>, code: Option<string>, source: ContactSource): seq<Contact>
  {
    seq(|numbers|, i requires 0 <= i < |numbers| => MakeContact(table, numbers[i], code, source))
  }

  function OriginContacts(table: Table, o: Origin): seq<Contact>
  {
    Contacts(table, NumbersOf(table, o.networkCode), o.networkCode, SourceLocation)
    + Contacts(table, o.numbers, o.countryCode, SourceUnknown)
  }

  function AllContacts(table: Table, origins: seq<Origin>): seq<Contact>
  {
    if origins == [] then [] else OriginContacts(table, origins[0]) + AllContacts(table, origins[1..])
  }

  function NumberSet(s: seq<Contact>): set<string>
  {
    set c | c in s :: c.number
  }

  /** Keeps a contact unless its number is in `seen` or occurred before. */
  function Dedup(s: seq<Contact>, seen: set<string>): seq<Contact>
    decreases |s|
  {
    if s == [] then []
    else if s[0].number in seen then Dedup(s[1..], seen)
    else [s[0]] + Dedup(s[1..], seen + {s[0].number})
  }

  lemma {:induction false} DedupTwo(a: seq<Contact>, b: seq<Contact>, seen: set<string>)
    ensures Dedup(a + b, seen) == Dedup(a, seen) + Dedup(b, seen + NumberSet(a))
    decreases |a|
  {
    if a == [] {
      assert a + b == b && seen + NumberSet(a) == seen;
    } else {
      assert (a + b)[1..] == a[1..] + b;
      var first := a[0].number;
      assert NumberSet(a) == {first} + NumberSet(a[1..]) by {
        assert a == [a[0]] + a[1..];
      }
      if first in seen {
        DedupTwo(a[1..], b, seen);
        assert seen + NumberSet(a[1..]) == seen + NumberSet(a);
      } else {
        DedupTwo(a[1..], b, seen + {first});
        assert seen + {first} + NumberSet(a[1..]) == seen + NumberSet(a);
      }
    }
  }

  /** The position of the first contact with a number. */
  function FirstWith(s: seq<Contact>, number: string): (k: nat)
    requires number in NumberSet(s)
    ensures k < |s| && s[k].number == number && forall j :: 0 <= j < k ==> s[j].number != number
  {
    if s[0].number == number then 0
    else
      assert s == [s[0]] + s[1..];
      1 + FirstWith(s[1..], number)
  }

  /** A list of contacts that are first occurrences in `s`, in the order of `s`, none of them seen. */
  ghost predicate FirstOccurrences(r: seq<Contact>, s: seq<Contact>, seen: set<string>)
  {
    && (forall i :: 0 <= i < |r| ==> r[i].number in NumberSet(s) && r[i].number !in seen
                                     && s[FirstWith(s, r[i].number)] == r[i])
    && (forall i, j :: 0 <= i < j < |r| ==> FirstWith(s, r[i].number) < FirstWith(s, r[j].number))
  }

  lemma FirstWithInTail(s: seq<Contact>, number: string)
    requires |s| > 0 && number in NumberSet(s[1..]) && s[0].number != number
    ensures number in NumberSet(s) && FirstWith(s, number) == 1 + FirstWith(s[1..], number)
  {
    assert s == [s[0]] + s[1..];
  }

  lemma {:induction false} DedupNumbers(s: seq<Contact>, seen: set<string>)
    ensures NumberSet(Dedup(s, seen)) == NumberSet(s) - seen
    decreases |s|
  {
    if s != [] {
      var head, tail := s[0], s[1..];
      assert s == [head] + tail;
      NumbersOfTwo([head], tail);
      assert NumberSet([head]) == {head.number} by {
        assert head in [head];
      }
      if head.number in seen {
        DedupNumbers(tail, seen);
      } else {
        DedupNumbers(tail, seen + {head.number});
        NumbersOfTwo([head], Dedup(tail, seen + {head.number}));
      }
    }
  }

  /** First occurrences in the tail, none of them with the head's number, are so in the whole list. */
  lemma CarryOver(r: seq<Contact>, s: seq<Contact>, later: set<string>)
    requires s != [] && s[0].number in later && FirstOccurrences(r, s[1..], later)
    ensures FirstOccurrences(r, s, later)
    ensures forall i :: 0 <= i < |r| ==> FirstWith(s, r[i].number) > 0
  {
    forall i | 0 <= i < |r|
      ensures r[i].number in NumberSet(s) && r[i].number != s[0].number
      ensures FirstWith(s, r[i].number) == 1 + FirstWith(s[1..], r[i].number)
    {
      FirstWithInTail(s, r[i].number);
    }
  }

  lemma HeadFirst(r: seq<Contact>, s: seq<Contact>, seen: set<string>)
    requires s != [] && s[0].number !in seen && FirstOccurrences(r, s, seen + {s[0].number})
    requires forall i :: 0 <= i < |r| ==> FirstWith(s, r[i].number) > 0
    ensures FirstOccurrences([s[0]] + r, s, seen)
  {
    assert s[0] in s && FirstWith(s, s[0].number) == 0;
    var all := [s[0]] + r;
    assert forall i :: 0 < i < |all| ==> all[i] == r[i - 1];
  }

  /** `Dedup` keeps, in order, the first contact of every number that was not seen, and nothing else. */
  lemma {:induction false} DedupKeepsFirsts(s: seq<Contact>, seen: set<string>)
    ensures FirstOccurrences(Dedup(s, seen), s, seen)
    ensures NumberSet(Dedup(s, seen)) == NumberSet(s) - seen
    decreases |s|
  {
    DedupNumbers(s, seen);
    if s != [] {
      var later := seen + {s[0].number};
      if s[0].number in seen {
        assert later == seen;
      }
      DedupKeepsFirsts(s[1..], later);
      var r := Dedup(s[1..], later);
      CarryOver(r, s, later);
      if s[0].number !in seen {
        HeadFirst(r, s, seen);
      }
    }
  }

  lemma OneContact(s: seq<Contact>, j: nat, seen: set<string>)
    requires j < |s|
    ensures NumberSet(s[..j + 1]) == NumberSet(s[..j]) + {s[j].number}
    ensures Dedup(s[..j + 1], seen)
         == Dedup(s[..j], seen) + if s[j].number in seen + NumberSet(s[..j]) then [] else [s[j]]
  {
    assert s[..j + 1] == s[..j] + [s[j]];
    DedupTwo(s[..j], [s[j]], seen);
    assert [s[j]][1..] == [];
    assert forall c :: c in s[..j + 1] <==> c in s[..j] || c == s[j];
  }

  /** One origin's share of the list, and what it leaves for the origins after it. */
  lemma OneOrigin(table: Table, o: Origin, rest: seq<Contact>, contacts: seq<Contact>, seen: set<string>,
                  location: seq<Contact>, own: seq<Contact>)
    requires location == Contacts(table, NumbersOf(table, o.networkCode), o.networkCode, SourceLocation)
    requires own == Contacts(table, o.numbers, o.countryCode, SourceUnknown)
    ensures contacts + Dedup(OriginContacts(table, o) + rest, seen)
         == contacts + Dedup(location, seen) + Dedup(own, seen + NumberSet(location))
            + Dedup(rest, seen + NumberSet(location) + NumberSet(own))
  {
    DedupTwo(location + own, rest, seen);
    DedupTwo(location, own, seen);
    NumbersOfTwo(location, own);
    assert seen + (NumberSet(location) + NumberSet(own)) == seen + NumberSet(location) + NumberSet(own);
    Regroup(contacts, Dedup(location, seen), Dedup(own, seen + NumberSet(location)),
            Dedup(rest, seen + NumberSet(location) + NumberSet(own)));
  }

  lemma Regroup(a: seq<Contact>, b: seq<Contact>, c: seq<Contact>, d: seq<Contact>)
    ensures a + (b + c + d) == a + b + c + d
  {
  }

  function Listing(table: Table, origins: seq<Origin>): seq<Contact>
  {
    Dedup(AllContacts(table, origins), {})
  }

  // ----- What a contact carries -----

  /** A contact is named after whom its number reaches, as the first slot with the number in the country asked
      says. It has the number for its name if the country is not known, has no such slot, or does not say. */
  lemma ContactMeans(table: Table, number: string, code: Option<string>, source: ContactSource, k: nat)
    requires code.Some? && LowerCase(code.value) in table ==> FirstSlot(table[LowerCase(code.value)], number, k)
    ensures var known := code.Some? && LowerCase(code.value) in table && k < |table[LowerCase(code.value)]|;
            var flags := if known then table[LowerCase(code.value)][k].flags else {};
            MakeContact(table, number, code, source) ==
            Contact(number, if flags == {} then number else Join(Labels(flags)), source)
  {
    if code.Some? && LowerCase(code.value) in table {
      NameOfSlot(table[LowerCase(code.value)], number, k);
    }
  }

  lemma {:induction false} FirstOfTwo(a: seq<Contact>, b: seq<Contact>, n: string)
    requires n in NumberSet(a) || n in NumberSet(b)
    ensures n in NumberSet(a + b)
    ensures (a + b)[FirstWith(a + b, n)] == if n in NumberSet(a) then a[FirstWith(a, n)] else b[FirstWith(b, n)]
  {
    NumbersOfTwo(a, b);
    var k := FirstWith(a + b, n);
    if n in NumberSet(a) {
      var i := FirstWith(a, n);
      assert (a + b)[i] == a[i] && forall j :: 0 <= j < i ==> (a + b)[j] == a[j];
      assert k == i;
    } else {
      var i := FirstWith(b, n);
      assert (a + b)[|a| + i] == b[i];
      assert forall j :: 0 <= j < |a| ==> (a + b)[j] in a && a[j].number in NumberSet(a);
      assert forall j :: |a| <= j < |a| + i ==> (a + b)[j] == b[j - |a|];
      assert k == |a| + i;
    }
  }

  lemma FirstIsMade(table: Table, numbers: seq<string>, code: Option<string>, source: ContactSource, n: string)
    requires n in numbers
    ensures var s := Contacts(table, numbers, code, source);
            n in NumberSet(s) && s[FirstWith(s, n)] == MakeContact(table, n, code, source)
  {
    ContactNumbers(table, numbers, code, source, n);
  }

  /** An origin that knows a number, from its location or as its own. */
  ghost predicate Knows(table: Table, o: Origin, n: string)
  {
    n in NumbersOf(table, o.networkCode) || n in o.numbers
  }

  /** The contact that an origin has for a number: from the location, named by its country, if the location has
      the number; otherwise of unknown source, named by the country of the SIM card or account. */
  ghost function ContactAt(table: Table, o: Origin, n: string): Contact
  {
    if n in NumbersOf(table, o.networkCode) then MakeContact(table, n, o.networkCode, SourceLocation)
    else MakeContact(table, n, o.countryCode, SourceUnknown)
  }

  lemma {:induction false} FirstCandidate(table: Table, origins: seq<Origin>, i: nat, n: string)
    requires i < |origins| && Knows(table, origins[i], n)
    requires forall j :: 0 <= j < i ==> !Knows(table, origins[j], n)
    ensures var all := AllContacts(table, origins);
            n in NumberSet(all) && all[FirstWith(all, n)] == ContactAt(table, origins[i], n)
  {
    var o, rest := origins[0], origins[1..];
    var location := Contacts(table, NumbersOf(table, o.networkCode), o.networkCode, SourceLocation);
    var own := Contacts(table, o.numbers, o.countryCode, SourceUnknown);
    ContactNumbers(table, NumbersOf(table, o.networkCode), o.networkCode, SourceLocation, n);
    ContactNumbers(table, o.numbers, o.countryCode, SourceUnknown, n);
    NumbersOfTwo(location, own);
    if i == 0 {
      if n in NumbersOf(table, o.networkCode) {
        FirstIsMade(table, NumbersOf(table, o.networkCode), o.networkCode, SourceLocation, n);
      } else {
        FirstIsMade(table, o.numbers, o.countryCode, SourceUnknown, n);
      }
      FirstOfTwo(location, own, n);
    } else {
      assert forall j :: 0 <= j < i - 1 ==> rest[j] == origins[j + 1];
      FirstCandidate(table, rest, i - 1, n);
    }
    FirstOfTwo(location + own, AllContacts(table, rest), n);
  }

  /** The list has exactly one contact for every number some origin knows: that of the first origin that does. */
  lemma ListedContactIs(table: Table, origins: seq<Origin>, i: nat, n: string)
    requires i < |origins| && Knows(table, origins[i], n)
    requires forall j :: 0 <= j < i ==> !Knows(table, origins[j], n)
    ensures var listing := Listing(table, origins);
            && ContactAt(table, origins[i], n) in listing
            && (forall c :: c in listing && c.number == n ==> c == ContactAt(table, origins[i], n))
  {
    var all := AllContacts(table, origins);
    var listing := Listing(table, origins);
    FirstCandidate(table, origins, i, n);
    DedupKeepsFirsts(all, {});
    assert n in NumberSet(listing);
    var c :| c in listing && c.number == n;
    forall d | d in listing && d.number == n ensures d == ContactAt(table, origins[i], n) {
      var k :| 0 <= k < |listing| && listing[k] == d;
    }
  }

  /** From document to contact: in the country of a well-formed document, its code in lower case, a number is
      named after whom the document says it reaches, at its first place in the country. */
  lemma CountryNamesItsNumbers(f: Forest, k: nat, builtins: seq<Builtin>, code: string, i: nat, source: ContactSource)
    requires DocumentOk(f) && DistinctCodes(CountriesIn(f)) && k < |CountriesIn(f)|
    requires CountriesIn(f)[k].numbers != [] && LowerCase(code) == CountriesIn(f)[k].code
    requires i < |CountriesIn(f)[k].numbers|
    requires forall j :: 0 <= j < i ==> CountriesIn(f)[k].numbers[j].number != CountriesIn(f)[k].numbers[i].number
    ensures var table := Merged(FromDatabase(Parse(NEW_CONTEXT, Flatten(f)).info), builtins);
            var n := CountriesIn(f)[k].numbers[i];
            MakeContact(table, n.number, Some(code), source) ==
            Contact(n.number, if n.flags == {} then n.number else Join(Labels(n.flags)), source)
  {
    TableOfDocument(f);
    var info := Parse(NEW_CONTEXT, Flatten(f)).info;
    DatabaseOverridesBuiltins(FromDatabase(info), builtins, LowerCase(code));
    ContactMeans(Merged(FromDatabase(info), builtins), CountriesIn(f)[k].numbers[i].number, Some(code), source, i);
  }

  // ----- Who is listed and who can be called -----

  ghost predicate OwnNumber(origins: seq<Origin>, number: string)
  {
    exists i :: 0 <= i < |origins| && number in origins[i].numbers
  }

  ghost predicate LocationNumber(table: Table, origins: seq<Origin>, number: string)
  {
    exists i :: 0 <= i < |origins| && number in NumbersOf(table, origins[i].networkCode)
  }

  lemma ContactNumbers(table: Table, numbers: seq<string>, code: Option<string>, source: ContactSource, n: string)
    ensures n in NumberSet(Contacts(table, numbers, code, source)) <==> n in numbers
  {
    var s := Contacts(table, numbers, code, source);
    if n in numbers {
      var i :| 0 <= i < |numbers| && numbers[i] == n;
      assert s[i] in s && s[i].number == n;
    }
  }

  lemma NumbersOfTwo(a: seq<Contact>, b: seq<Contact>)
    ensures NumberSet(a + b) == NumberSet(a) + NumberSet(b)
  {
    assert forall c :: c in a + b <==> c in a || c in b;
  }

  lemma {:induction false} ListedIff(table: Table, origins: seq<Origin>, n: string)
    ensures n in NumberSet(AllContacts(table, origins)) <==> OwnNumber(origins, n) || LocationNumber(table, origins, n)
  {
    if origins != [] {
      var o, rest := origins[0], origins[1..];
      ListedIff(table, rest, n);
      var location := Contacts(table, NumbersOf(table, o.networkCode), o.networkCode, SourceLocation);
      var own := Contacts(table, o.numbers, o.countryCode, SourceUnknown);
      ContactNumbers(table, NumbersOf(table, o.networkCode), o.networkCode, SourceLocation, n);
      ContactNumbers(table, o.numbers, o.countryCode, SourceUnknown, n);
      NumbersOfTwo(location, own);
      NumbersOfTwo(location + own, AllContacts(table, rest));
      assert forall i :: 0 < i < |origins| ==> origins[i] == rest[i - 1];
      assert forall i :: 0 <= i < |rest| ==> rest[i] == origins[i + 1];
    }
  }

  /** The first origin that lists the number itself. */
  function Caller(origins: seq<Origin>, number: string): (r: Option<nat>)
    ensures r.None? <==> !OwnNumber(origins, number)
    ensures r.Some? ==> r.value < |origins| && number in origins[r.value].numbers
                        && forall j :: 0 <= j < r.value ==> number !in origins[j].numbers
  {
    if origins == [] then None
    else if number in origins[0].numbers then Some(0)
    else
      var rest := Caller(origins[1..], number);
      assert forall i :: 0 < i < |origins| ==> origins[i] == origins[1..][i - 1];
      assert OwnNumber(origins, number) <==> OwnNumber(origins[1..], number) by {
        assert forall i :: 0 <= i < |origins[1..]| ==> origins[1..][i] == origins[i + 1];
      }
      match rest
      case None => None
      case Some(i) => Some(i + 1)
  }

  /** The list holds every number that can be called, once; a listed number is refused exactly when it
      is only known from the location. */
  lemma ListedButRefusedIff(table: Table, origins: seq<Origin>, n: string)
    ensures Caller(origins, n).Some? ==> n in NumberSet(Listing(table, origins))
    ensures n in NumberSet(Listing(table, origins)) && Caller(origins, n).None?
       <==> LocationNumber(table, origins, n) && !OwnNumber(origins, n)
  {
    DedupKeepsFirsts(AllContacts(table, origins), {});
    ListedIff(table, origins, n);
  }

  // ----- The loops -----

  method InitTypes(info: map<string, seq<Number>>, builtins: seq<Builtin>) returns (table: Table)
    ensures table == Merged(FromDatabase(info), builtins)
  {
    table := FromDatabase(info);
    for i := 0 to |builtins|
      invariant Merged(table, builtins[i..]) == Merged(FromDatabase(info), builtins)
    {
      assert builtins[i..][1..] == builtins[i + 1..];
      if builtins[i].code in table {
        continue;
      }
      var slots: seq<Slot> := [];
      for k := 0 to |builtins[i].slots|
        invariant slots == builtins[i].slots[..k]
      {
        slots := slots + [builtins[i].slots[k]];
      }
      assert slots == builtins[i].slots;
      table := table[builtins[i].code := slots];
    }
  }

  method GetName(table: Table, lookup: string, code: Option<string>) returns (name: Option<string>)
    ensures name == TypeName(table, lookup, code)
  {
    if code == None {
      return None;
    }
    var lcode := LowerCase(code.value);
    if lcode !in table {
      return None;
    }
    var slots := table[lcode];
    for i := 0 to |slots|
      invariant NameIn(slots, lookup) == NameIn(slots[i..], lookup)
    {
      assert slots[i..][1..] == slots[i + 1..];
      if slots[i].number == Some(lookup) {
        return FlagsToString(slots[i].flags);
      }
    }
    return None;
  }

  /** One of the two inner loops over an origin: adds the contacts whose numbers are new. */
  method AddContacts(table: Table, numbers: seq<string>, code: Option<string>, source: ContactSource,
                     contacts: seq<Contact>, seen: set<string>)
    returns (all: seq<Contact>, nowSeen: set<string>)
    ensures all == contacts + Dedup(Contacts(table, numbers, code, source), seen)
    ensures nowSeen == seen + NumberSet(Contacts(table, numbers, code, source))
  {
    all, nowSeen := contacts, seen;
    ghost var candidates := Contacts(table, numbers, code, source);
    for j := 0 to |numbers|
      invariant all == contacts + Dedup(candidates[..j], seen)
      invariant nowSeen == seen + NumberSet(candidates[..j])
    {
      OneContact(candidates, j, seen);
      if numbers[j] in nowSeen {
        continue;
      }
      var name := GetName(table, numbers[j], code);
      var contact := if name.Some? then name.value else numbers[j];
      all := all + [Contact(numbers[j], contact, source)];
      nowSeen := nowSeen + {numbers[j]};
    }
    assert candidates[..|numbers|] == candidates;
  }

  method GetEmergencyContacts(table: Table, origins: seq<Origin>) returns (contacts: seq<Contact>)
    ensures contacts == Listing(table, origins)
  {
    contacts := [];
    var seen: set<string> := {};
    for i := 0 to |origins|
      invariant contacts + Dedup(AllContacts(table, origins[i..]), seen) == Listing(table, origins)
    {
      var o := origins[i];
      assert origins[i..][1..] == origins[i + 1..];
      ghost var location := Contacts(table, NumbersOf(table, o.networkCode), o.networkCode, SourceLocation);
      ghost var own := Contacts(table, o.numbers, o.countryCode, SourceUnknown);
      OneOrigin(table, o, AllContacts(table, origins[i + 1..]), contacts, seen, location, own);
      var numbers := NumbersOf(table, o.networkCode);
      contacts, seen := AddContacts(table, numbers, o.networkCode, SourceLocation, contacts, seen);
      contacts, seen := AddContacts(table, o.numbers, o.countryCode, SourceUnknown, contacts, seen);
    }
  }

  /** Dials through the first origin that lists the number, or reports that it is not known. */
  method CallEmergencyContact(origins: seq<Origin>, id: string) returns (dialed: Option<nat>)
    ensures dialed == Caller(origins, id)
  {
    for i := 0 to |origins|
      invariant forall k :: 0 <= k < i ==> id !in origins[k].numbers
    {
      for j := 0 to |origins[i].numbers|
        invariant forall k :: 0 <= k < j ==> origins[i].numbers[k] != id
      {
        if origins[i].numbers[j] == id {
          return Some(i);
        }
      }
    }
    return None;
  }
}
