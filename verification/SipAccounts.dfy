/** Saving the SIP accounts to a key file and a keyring and loading them back. */
module SipAccounts {
  import opened CallStates
  import opened Decimal

  /** What a SIP origin holds of its account. `direct` is whether it connects directly; its property
      "direct-mode" is written from that when the origin is made, but always reads as FALSE. */
  datatype Account = Account(
    id: string,
    host: Option<string>,
    proxy: Option<string>,
    user: Option<string>,
    password: Option<string>,
    displayName: Option<string>,
    protocol: string,
    port: int,
    localPort: int,
    autoConnect: bool,
    direct: bool,
    canTel: bool,
    mediaEncryption: int)

  /** The names of the machine and of its user. */
  datatype Machine = Machine(host: string, user: string)

  /** One group of the key file; a key that is not set is missing. */
  datatype Group = Group(
    id: Option<string>,
    host: Option<string>,
    proxy: Option<string>,
    user: Option<string>,
    displayName: Option<string>,
    protocol: Option<string>,
    port: Option<int>,
    localPort: Option<int>,
    autoConnect: Option<bool>,
    directMode: Option<bool>,
    canTel: Option<bool>,
    mediaEncryption: Option<int>)

  datatype Named = Named(name: string, group: Group)

  /** The groups in file order. */
  type KeyFile = seq<Named>

  /** Passwords by host and user. */
  type Keyring = map<(string, string), string>

  // ----- Group names -----

  /** `"sip-%02d"`. */
  function GroupName(i: nat): string
  {
    "sip-" + if i < 10 then "0" + Digits(i) else Digits(i)
  }

  lemma NameHasValue(i: nat)
    ensures |GroupName(i)| >= 4 && Value(GroupName(i)[4..]) == i
  {
    DigitsHaveValue(i);
    if i < 10 {
      assert GroupName(i)[4..] == "0" + Digits(i);
      assert ("0" + Digits(i))[..1] == "0" && "0"[..0] == "";
    } else {
      assert GroupName(i)[4..] == Digits(i);
    }
  }

  /** No two indices share a group, however many accounts there are. */
  lemma GroupNamesDiffer(i: nat, j: nat)
    requires i != j
    ensures GroupName(i) != GroupName(j)
  {
    NameHasValue(i);
    NameHasValue(j);
  }

  // ----- The key file -----

  /** Writing a group replaces it where it stands, or adds it at the end. */
  function Put(file: KeyFile, name: string, group: Group): KeyFile
  {
    if file == [] then [Named(name, group)]
    else if file[0].name == name then [Named(name, group)] + file[1..]
    else [file[0]] + Put(file[1..], name, group)
  }

  lemma {:induction false} PutNew(file: KeyFile, name: string, group: Group)
    requires forall k :: 0 <= k < |file| ==> file[k].name != name
    ensures Put(file, name, group) == file + [Named(name, group)]
  {
    if file != [] {
      PutNew(file[1..], name, group);
    }
  }

  function OrEmpty(s: Option<string>): string
  {
    if s.Some? then s.value else ""
  }

  /** A missing host or user is refused by the key file, which leaves the key out. The direct mode is read
      through its property. */
  function GroupOf(a: Account): Group
  {
    Group(Some(a.id), a.host, Some(OrEmpty(a.proxy)), a.user, Some(OrEmpty(a.displayName)), Some(a.protocol),
          Some(a.port), Some(a.localPort), Some(a.autoConnect), Some(false), Some(a.canTel), Some(a.mediaEncryption))
  }

  /** Storing needs a host, a user and a password. */
  function Stored(ring: Keyring, a: Account): Keyring
  {
    if a.host.Some? && a.user.Some? && a.password.Some? then ring[(a.host.value, a.user.value) := a.password.value]
    else ring
  }

  function LookedUp(ring: Keyring, host: Option<string>, user: Option<string>): Option<string>
  {
    if host.Some? && user.Some? && (host.value, user.value) in ring then Some(ring[(host.value, user.value)]) else None
  }

  function SaveFrom(accounts: seq<Account>, i: nat, file: KeyFile): KeyFile
    requires i <= |accounts|
    decreases |accounts| - i
  {
    if i == |accounts| then file
    else SaveFrom(accounts, i + 1, Put(file, GroupName(i), GroupOf(accounts[i])))
  }

  function StoreFrom(accounts: seq<Account>, i: nat, ring: Keyring): Keyring
    requires i <= |accounts|
    decreases |accounts| - i
  {
    if i == |accounts| then ring else StoreFrom(accounts, i + 1, Stored(ring, accounts[i]))
  }

  // ----- Making an origin -----

  predicate ValidProtocol(protocol: string)
  {
    protocol == "UDP" || protocol == "TCP" || protocol == "TLS"
  }

  /** A value that a property does not allow is not set: the field keeps its initial 0. */
  function Allowed(value: int, max: int): int
  {
    if 0 <= value <= max then value else 0
  }

  /** Nor is a privileged local port. */
  function AllowedLocalPort(port: int): int
  {
    if 0 < port < 1025 then 0 else Allowed(port, 65535)
  }

  /** What an origin made from an account holds: one that connects directly takes the machine's name for its
      host, forgets the password, and uses UDP. */
  function Made(m: Machine, a: Account): Account
  {
    var set_ := a.(port := Allowed(a.port, 65535), localPort := AllowedLocalPort(a.localPort),
                   mediaEncryption := Allowed(a.mediaEncryption, 2));
    if !a.direct then set_
    else
      set_.(host := Some(m.host), user := if a.user.None? then Some(m.user) else a.user, password := None,
            protocol := "UDP")
  }

  /** What holds of every origin that was made. */
  predicate Steady(a: Account)
  {
    && a.host.Some? && a.user.Some? && ValidProtocol(a.protocol)
    && a.port == Allowed(a.port, 65535) && a.localPort == AllowedLocalPort(a.localPort)
    && a.mediaEncryption == Allowed(a.mediaEncryption, 2)
  }

  /** What is asked of an account by the function that adds it. */
  predicate Addable(a: Account)
  {
    !a.direct ==> a.host.Some? && a.user.Some? && a.password.Some?
  }

  /** An origin that was made is steady, a steady origin that does not connect directly would be made
      again as it is, and a direct one has lost its password. */
  lemma MadeIsSteady(m: Machine, a: Account)
    requires Addable(a) && ValidProtocol(a.protocol)
    ensures Steady(Made(m, a)) && Addable(Made(m, a)) && Made(m, a).direct == a.direct
    ensures Made(m, Made(m, a)) == Made(m, a)
    ensures a.direct ==> Made(m, a).password.None?
  {
  }

  // ----- Loading -----

  predicate Filled(s: Option<string>)
  {
    s.Some? && s.value != ""
  }

  predicate Acceptable(a: Account)
  {
    ValidProtocol(a.protocol) && (a.direct || (Filled(a.host) && Filled(a.user) && Filled(a.password)))
  }

  function Or<T>(x: Option<T>, default: T): T
  {
    if x.Some? then x.value else default
  }

  /** The account of a group once its password has been looked up; missing keys have their defaults. */
  function Restored(name: string, g: Group, password: Option<string>): Account
  {
    Account(Or(g.id, name), g.host, g.proxy, g.user, password, g.displayName, Or(g.protocol, "UDP"), Or(g.port, 0),
            Or(g.localPort, 0), Or(g.autoConnect, true), Or(g.directMode, false), Or(g.canTel, false),
            Or(g.mediaEncryption, 0))
  }

  function LoadOne(m: Machine, named: Named, ring: Keyring): seq<Account>
  {
    var a := Restored(named.name, named.group, LookedUp(ring, named.group.host, named.group.user));
    if Acceptable(a) then [Made(m, a)] else []
  }

  /** Lookups that finish in the order in which they were started. */
  function LoadAll(m: Machine, file: KeyFile, ring: Keyring): seq<Account>
  {
    if file == [] then [] else LoadOne(m, file[0], ring) + LoadAll(m, file[1..], ring)
  }

  /** What a saved account comes back as: absent proxy and display name become empty strings. */
  function Normal(a: Account): Account
  {
    a.(proxy := Some(OrEmpty(a.proxy)), displayName := Some(OrEmpty(a.displayName)))
  }

  function Normals(accounts: seq<Account>): seq<Account>
  {
    seq(|accounts|, i requires 0 <= i < |accounts| => Normal(accounts[i]))
  }

  // ----- The round trip -----

  function Saved(accounts: seq<Account>): KeyFile
  {
    seq(|accounts|, i requires 0 <= i < |accounts| => Named(GroupName(i), GroupOf(accounts[i])))
  }

  /** Saving into an empty file writes one group for each account, in order. */
  lemma {:induction false} SaveWritesOneGroupEach(accounts: seq<Account>, i: nat)
    requires i <= |accounts|
    ensures SaveFrom(accounts, i, Saved(accounts)[..i]) == Saved(accounts)
    decreases |accounts| - i
  {
    if i < |accounts| {
      forall k | 0 <= k < i ensures Saved(accounts)[..i][k].name != GroupName(i) {
        GroupNamesDiffer(k, i);
      }
      PutNew(Saved(accounts)[..i], GroupName(i), GroupOf(accounts[i]));
      assert Saved(accounts)[..i + 1] == Saved(accounts)[..i] + [Named(GroupName(i), GroupOf(accounts[i]))];
      SaveWritesOneGroupEach(accounts, i + 1);
    } else {
      assert Saved(accounts)[..i] == Saved(accounts);
    }
  }

  predicate SameKey(a: Account, b: Account)
  {
    a.host.Some? && a.user.Some? && a.host == b.host && a.user == b.user
  }

  /** Accounts filed under the same host and user have the same password. */
  ghost predicate SharedPasswords(accounts: seq<Account>)
  {
    forall i, j :: 0 <= i < |accounts| && 0 <= j < |accounts| && SameKey(accounts[i], accounts[j]) ==>
      accounts[i].password == accounts[j].password
  }

  lemma {:induction false} StoreKeepsAgreeing(accounts: seq<Account>, i: nat, ring: Keyring, a: Account)
    requires i <= |accounts| && a.host.Some? && a.user.Some? && LookedUp(ring, a.host, a.user) == a.password
    requires forall j :: i <= j < |accounts| && SameKey(a, accounts[j]) ==> accounts[j].password == a.password
    ensures LookedUp(StoreFrom(accounts, i, ring), a.host, a.user) == a.password
    decreases |accounts| - i
  {
    if i < |accounts| {
      assert SameKey(a, accounts[i]) <==> accounts[i].host == a.host && accounts[i].user == a.user;
      StoreKeepsAgreeing(accounts, i + 1, Stored(ring, accounts[i]), a);
    }
  }

  lemma {:induction false} StoredIsFound(accounts: seq<Account>, i: nat, ring: Keyring, j: nat)
    requires i <= j < |accounts| && SharedPasswords(accounts)
    requires accounts[j].host.Some? && accounts[j].user.Some? && accounts[j].password.Some?
    ensures LookedUp(StoreFrom(accounts, i, ring), accounts[j].host, accounts[j].user) == accounts[j].password
    decreases |accounts| - i
  {
    if i == j {
      StoreKeepsAgreeing(accounts, i + 1, Stored(ring, accounts[j]), accounts[j]);
    } else {
      StoredIsFound(accounts, i + 1, Stored(ring, accounts[i]), j);
    }
  }

  /** The account of a saved origin, as the loader reads it: never a direct one. */
  lemma LoadedAccount(m: Machine, a: Account, name: string, ring: Keyring)
    requires Steady(a)
    ensures var password := LookedUp(ring, a.host, a.user);
            LoadOne(m, Named(name, GroupOf(a)), ring) ==
              if Filled(a.host) && Filled(a.user) && Filled(password)
              then [Normal(a).(password := password, direct := false)] else []
  {
  }

  lemma {:induction false} LoadLength(m: Machine, file: KeyFile, ring: Keyring)
    ensures |LoadAll(m, file, ring)| <= |file|
    ensures |LoadAll(m, file, ring)| == |file| ==>
              forall k :: 0 <= k < |file| ==> LoadOne(m, file[k], ring) == [LoadAll(m, file, ring)[k]]
  {
    if file != [] {
      LoadLength(m, file[1..], ring);
      if |LoadAll(m, file, ring)| == |file| {
        forall k | 0 <= k < |file| ensures LoadOne(m, file[k], ring) == [LoadAll(m, file, ring)[k]] {
          if k > 0 {
            assert file[k] == file[1..][k - 1];
          }
        }
      }
    }
  }

  lemma {:induction false} LoadEach(m: Machine, file: KeyFile, ring: Keyring, result: seq<Account>)
    requires |result| == |file| && forall k :: 0 <= k < |file| ==> LoadOne(m, file[k], ring) == [result[k]]
    ensures LoadAll(m, file, ring) == result
  {
    if file != [] {
      LoadEach(m, file[1..], ring, result[1..]);
      assert [result[0]] + result[1..] == result;
    }
  }

  ghost predicate AllSteady(accounts: seq<Account>)
  {
    forall i :: 0 <= i < |accounts| ==> Steady(accounts[i])
  }

  /** An account that does not connect directly and has all its credentials. */
  predicate Loadable(a: Account)
  {
    !a.direct && Filled(a.host) && Filled(a.user) && Filled(a.password)
  }

  ghost predicate AllLoadable(accounts: seq<Account>)
  {
    forall i :: 0 <= i < |accounts| ==> Loadable(accounts[i])
  }

  /** Saving the accounts of any origins, into any keyring, and loading them, on any machine, gives the same
      list, normalised, exactly when none connects directly, none lacks credentials, and accounts of the
      same host and user have the same password. */
  lemma RoundTripIff(m: Machine, accounts: seq<Account>, ring: Keyring)
    requires AllSteady(accounts)
    ensures LoadAll(m, SaveFrom(accounts, 0, []), StoreFrom(accounts, 0, ring)) == Normals(accounts)
       <==> AllLoadable(accounts) && SharedPasswords(accounts)
  {
    SaveWritesOneGroupEach(accounts, 0);
    var file, after := Saved(accounts), StoreFrom(accounts, 0, ring);
    forall k | 0 <= k < |accounts|
      ensures LoadOne(m, file[k], after) == [Normal(accounts[k])] <==>
              Loadable(accounts[k]) && LookedUp(after, accounts[k].host, accounts[k].user) == accounts[k].password
    {
      LoadedAccount(m, accounts[k], GroupName(k), after);
    }
    if AllLoadable(accounts) && SharedPasswords(accounts) {
      forall k | 0 <= k < |accounts| ensures LoadOne(m, file[k], after) == [Normals(accounts)[k]] {
        StoredIsFound(accounts, 0, ring, k);
      }
      LoadEach(m, file, after, Normals(accounts));
    } else if LoadAll(m, file, after) == Normals(accounts) {
      LoadLength(m, file, after);
    }
  }

  /** Accounts that differ in host or user make the round trip exactly if none connects directly and none
      lacks credentials. */
  lemma DistinctAccountsRoundTrip(m: Machine, accounts: seq<Account>, ring: Keyring)
    requires AllSteady(accounts)
    requires forall i, j :: 0 <= i < j < |accounts| ==> !SameKey(accounts[i], accounts[j])
    ensures LoadAll(m, SaveFrom(accounts, 0, []), StoreFrom(accounts, 0, ring)) == Normals(accounts)
       <==> AllLoadable(accounts)
  {
    forall i, j | 0 <= i < |accounts| && 0 <= j < |accounts| && SameKey(accounts[i], accounts[j])
      ensures accounts[i].password == accounts[j].password
    {
      assert SameKey(accounts[j], accounts[i]);
      assert i == j;
    }
    RoundTripIff(m, accounts, ring);
  }

  /** An account added for direct connections, alone in its provider, is saved as one that is not: it is
      lost when it is loaded, or comes back with a password that the keyring had for it, to be used
      against a server. */
  lemma DirectAccountIsLost(m: Machine, n: Machine, a: Account, ring: Keyring)
    requires a.direct && ValidProtocol(a.protocol)
    ensures var origin := Made(m, a);
            var password := LookedUp(ring, origin.host, origin.user);
            LoadAll(n, SaveFrom([origin], 0, []), StoreFrom([origin], 0, ring)) ==
              if Filled(origin.host) && Filled(origin.user) && Filled(password)
              then [Normal(origin).(password := password, direct := false)] else []
  {
    var origin := Made(m, a);
    MadeIsSteady(m, a);
    SaveWritesOneGroupEach([origin], 0);
    LoadedAccount(n, origin, GroupName(0), ring);
    assert StoreFrom([origin], 0, ring) == StoreFrom([origin], 1, ring) == ring;
    var one := Named(GroupName(0), GroupOf(origin));
    assert Saved([origin]) == [one] && [one][1..] == [];
    assert LoadAll(n, [one], ring) == LoadOne(n, one, ring) + LoadAll(n, [], ring);
  }

  // ----- Single accounts -----

  /** A port, local port or kind of encryption that an origin may have. */
  ghost predicate InRange(a: Account)
  {
    && 0 <= a.port <= 65535 && 0 <= a.mediaEncryption <= 2
    && (a.localPort == 0 || 1025 <= a.localPort <= 65535)
  }

  /** An origin keeps what it is given if it is in range, and 0 for each number that is not; a protocol is one of
      three. An origin that connects directly has the machine's host, the user it was given or else the
      machine's, no password, and UDP. */
  lemma MadeMeans(m: Machine, a: Account)
    ensures ValidProtocol(a.protocol) <==> a.protocol in ["UDP", "TCP", "TLS"]
    ensures InRange(Made(m, a)) && (InRange(a) && !a.direct ==> Made(m, a) == a)
    ensures 0 <= a.port <= 65535 ==> Made(m, a).port == a.port
    ensures a.port < 0 || 65535 < a.port ==> Made(m, a).port == 0
    ensures 1025 <= a.localPort <= 65535 ==> Made(m, a).localPort == a.localPort
    ensures a.localPort < 1025 || 65535 < a.localPort ==> Made(m, a).localPort == 0
    ensures 0 <= a.mediaEncryption <= 2 ==> Made(m, a).mediaEncryption == a.mediaEncryption
    ensures a.mediaEncryption < 0 || 2 < a.mediaEncryption ==> Made(m, a).mediaEncryption == 0
    ensures InRange(a) && a.direct ==>
              Made(m, a) == a.(host := Some(m.host), user := Some(if a.user.Some? then a.user.value else m.user),
                               password := None, protocol := "UDP")
  {
    var protocols := ["UDP", "TCP", "TLS"];
    assert protocols[0] == "UDP" && protocols[1] == "TCP" && protocols[2] == "TLS";
  }

  /** The saved form of one account: everything but the password, which goes to the keyring, and whether it
      connects directly. */
  lemma SavedMeans(a: Account, ring: Keyring)
    ensures SaveFrom([a], 0, []) ==
            [Named("sip-00", Group(Some(a.id), a.host, Some(if a.proxy.Some? then a.proxy.value else ""), a.user,
                                   Some(if a.displayName.Some? then a.displayName.value else ""), Some(a.protocol),
                                   Some(a.port), Some(a.localPort), Some(a.autoConnect), Some(false), Some(a.canTel),
                                   Some(a.mediaEncryption)))]
    ensures StoreFrom([a], 0, ring) ==
            if a.host.Some? && a.user.Some? && a.password.Some?
            then ring[(a.host.value, a.user.value) := a.password.value] else ring
  {
    assert GroupName(0) == "sip-00" by {
      assert Digits(0) == ['0'];
    }
    SaveWritesOneGroupEach([a], 0);
    assert Saved([a]) == [Named(GroupName(0), GroupOf(a))];
    assert StoreFrom([a], 0, ring) == StoreFrom([a], 1, Stored(ring, a));
  }

  /** An account in range that does not connect directly and has its credentials comes back as it is, whatever
      else the keyring holds; only an absent proxy or display name comes back empty. */
  lemma AccountComesBack(m: Machine, a: Account, ring: Keyring)
    requires InRange(a) && !a.direct && a.protocol in ["UDP", "TCP", "TLS"]
    requires a.host.Some? && a.user.Some? && a.password.Some?
    requires a.host.value != "" && a.user.value != "" && a.password.value != ""
    ensures LoadAll(m, SaveFrom([a], 0, []), StoreFrom([a], 0, ring)) ==
            [a.(proxy := Some(if a.proxy.Some? then a.proxy.value else ""),
                displayName := Some(if a.displayName.Some? then a.displayName.value else ""))]
  {
    MadeMeans(m, a);
    RoundTripIff(m, [a], ring);
    assert Normals([a]) == [Normal(a)];
  }

  /** A group with nothing but a host and a user in it is loaded exactly if the keyring has a password for them;
      all other keys have their defaults. */
  lemma BareGroupLoads(m: Machine, name: string, host: string, user: string, ring: Keyring)
    requires host != "" && user != ""
    ensures var bare := Group(None, Some(host), None, Some(user), None, None, None, None, None, None, None, None);
            LoadOne(m, Named(name, bare), ring) ==
            if (host, user) in ring && ring[(host, user)] != ""
            then [Account(name, Some(host), None, Some(user), Some(ring[(host, user)]), None, "UDP", 0, 0, true, false,
                          false, 0)]
            else []
  {
  }

  /** Which groups are loaded at all: those with a known protocol that connect directly or have their
      credentials; each becomes one account with what the group says. */
  lemma GroupLoadsIff(m: Machine, name: string, g: Group, ring: Keyring)
    ensures var protocol := if g.protocol.Some? then g.protocol.value else "UDP";
            var loaded := LoadOne(m, Named(name, g), ring);
            && (loaded != [] <==>
                  && protocol in ["UDP", "TCP", "TLS"]
                  && (g.directMode == Some(true)
                      || (g.host.Some? && g.user.Some? && g.host.value != "" && g.user.value != ""
                          && (g.host.value, g.user.value) in ring && ring[(g.host.value, g.user.value)] != "")))
            && (loaded != [] ==>
                  && |loaded| == 1 && loaded[0].id == (if g.id.Some? then g.id.value else name)
                  && loaded[0].proxy == g.proxy && loaded[0].displayName == g.displayName
                  && loaded[0].direct == (g.directMode == Some(true))
                  && loaded[0].autoConnect == (g.autoConnect != Some(false))
                  && loaded[0].canTel == (g.canTel == Some(true)))
            && (loaded != [] ==>
                  && InRange(loaded[0])
                  && (g.port.Some? && 0 <= g.port.value <= 65535 ==> loaded[0].port == g.port.value)
                  && (g.localPort.Some? && 1025 <= g.localPort.value <= 65535 ==>
                        loaded[0].localPort == g.localPort.value)
                  && (g.mediaEncryption.Some? && 0 <= g.mediaEncryption.value <= 2 ==>
                        loaded[0].mediaEncryption == g.mediaEncryption.value))
            && (loaded != [] && g.directMode == Some(true) ==>
                  && loaded[0].host == Some(m.host) && loaded[0].password == None && loaded[0].protocol == "UDP"
                  && loaded[0].user == (if g.user.Some? then g.user else Some(m.user)))
            && (loaded != [] && g.directMode != Some(true) ==>
                  && loaded[0].host == g.host && loaded[0].user == g.user && loaded[0].protocol == protocol
                  && loaded[0].password == Some(ring[(g.host.value, g.user.value)]))
  {
    var protocols := ["UDP", "TCP", "TLS"];
    assert protocols[0] == "UDP" && protocols[1] == "TCP" && protocols[2] == "TLS";
  }

  /** Saving into a file that has a group of the name already replaces that group, where it stands, and no
      other. */
  lemma {:induction false} PutReplaces(file: KeyFile, name: string, group: Group, k: nat)
    requires k < |file| && file[k].name == name && forall j :: 0 <= j < k ==> file[j].name != name
    ensures Put(file, name, group) == file[k := Named(name, group)]
  {
    if k > 0 {
      PutReplaces(file[1..], name, group, k - 1);
    }
  }

  // ----- Saving again -----

  /** The keyring has a password for every account that was saved. */
  ghost predicate AllHavePasswords(accounts: seq<Account>, ring: Keyring)
  {
    forall i :: 0 <= i < |accounts| ==>
      Filled(accounts[i].host) && Filled(accounts[i].user) && Filled(LookedUp(ring, accounts[i].host, accounts[i].user))
  }

  /** Saving what was loaded writes the file again exactly if every account was found a password; the
      direct mode, which the file does not hold, makes no difference. */
  lemma SaveAfterLoadIff(m: Machine, accounts: seq<Account>, ring: Keyring)
    requires AllSteady(accounts)
    ensures SaveFrom(LoadAll(m, Saved(accounts), ring), 0, []) == Saved(accounts) <==> AllHavePasswords(accounts, ring)
  {
    var file := Saved(accounts);
    var loaded := LoadAll(m, file, ring);
    SaveWritesOneGroupEach(loaded, 0);
    LoadLength(m, file, ring);
    forall k | 0 <= k < |accounts|
      ensures LoadOne(m, file[k], ring) == [] <==>
              !(Filled(accounts[k].host) && Filled(accounts[k].user)
                && Filled(LookedUp(ring, accounts[k].host, accounts[k].user)))
      ensures LoadOne(m, file[k], ring) != [] ==>
              |LoadOne(m, file[k], ring)| == 1 && GroupOf(LoadOne(m, file[k], ring)[0]) == GroupOf(accounts[k])
    {
      LoadedAccount(m, accounts[k], GroupName(k), ring);
    }
    if AllHavePasswords(accounts, ring) {
      var all := seq(|file|, k requires 0 <= k < |file| && LoadOne(m, file[k], ring) != [] =>
                       LoadOne(m, file[k], ring)[0]);
      LoadEach(m, file, ring, all);
      assert Saved(all) == file;
    } else if Saved(loaded) == file {
      assert |loaded| == |Saved(loaded)| == |file|;
      assert forall k :: 0 <= k < |file| ==> LoadOne(m, file[k], ring) != [];
    }
  }

  /** And it leaves the keyring as it is, whatever the file was. */
  lemma {:induction false} SaveAfterLoadKeepsKeyring(m: Machine, file: KeyFile, ring: Keyring)
    ensures StoreFrom(LoadAll(m, file, ring), 0, ring) == ring
  {
    LoadedComeFromKeyring(m, file, ring);
    StoringKnownKeepsKeyring(LoadAll(m, file, ring), 0, ring);
  }

  lemma {:induction false} LoadedComeFromKeyring(m: Machine, file: KeyFile, ring: Keyring)
    ensures forall a :: a in LoadAll(m, file, ring) && a.password.Some? ==> a.password == LookedUp(ring, a.host, a.user)
  {
    if file != [] {
      LoadedComeFromKeyring(m, file[1..], ring);
    }
  }

  lemma {:induction false} StoringKnownKeepsKeyring(accounts: seq<Account>, i: nat, ring: Keyring)
    requires i <= |accounts|
    requires forall a :: a in accounts && a.password.Some? ==> a.password == LookedUp(ring, a.host, a.user)
    ensures StoreFrom(accounts, i, ring) == ring
    decreases |accounts| - i
  {
    if i < |accounts| {
      assert accounts[i] in accounts;
      assert Stored(ring, accounts[i]) == ring;
      StoringKnownKeepsKeyring(accounts, i + 1, ring);
    }
  }

  // ----- Lookups in any order -----

  /** A provider whose lookups are under way. */
  datatype Loading = Loading(origins: seq<Account>, pending: seq<Named>)

  /** The k-th of the pending lookups finishes. */
  function Finished(m: Machine, ring: Keyring, l: Loading, k: nat): Loading
    requires k < |l.pending|
  {
    Loading(l.origins + LoadOne(m, l.pending[k], ring), l.pending[..k] + l.pending[k + 1..])
  }

  predicate CanFinish(pending: nat, choices: seq<nat>)
    decreases |choices|
  {
    choices == [] || (choices[0] < pending && CanFinish(pending - 1, choices[1..]))
  }

  function FinishAll(m: Machine, ring: Keyring, l: Loading, choices: seq<nat>): Loading
    requires CanFinish(|l.pending|, choices)
    decreases |choices|
  {
    if choices == [] then l else FinishAll(m, ring, Finished(m, ring, l, choices[0]), choices[1..])
  }

  lemma {:induction false} LoadTwo(m: Machine, a: KeyFile, b: KeyFile, ring: Keyring)
    ensures LoadAll(m, a + b, ring) == LoadAll(m, a, ring) + LoadAll(m, b, ring)
  {
    if a == [] {
      assert a + b == b;
    } else {
      assert (a + b)[1..] == a[1..] + b;
      LoadTwo(m, a[1..], b, ring);
    }
  }

  lemma FinishConserves(m: Machine, ring: Keyring, l: Loading, k: nat)
    requires k < |l.pending|
    ensures var n := Finished(m, ring, l, k);
            && multiset(n.origins) + multiset(LoadAll(m, n.pending, ring))
               == multiset(l.origins) + multiset(LoadAll(m, l.pending, ring))
            && (k == 0 ==> n.origins + LoadAll(m, n.pending, ring) == l.origins + LoadAll(m, l.pending, ring))
  {
    var before, one, after := l.pending[..k], [l.pending[k]], l.pending[k + 1..];
    assert l.pending == before + (one + after);
    LoadTwo(m, before, one + after, ring);
    LoadTwo(m, one, after, ring);
    LoadTwo(m, before, after, ring);
    assert one[1..] == [] && LoadAll(m, one, ring) == LoadOne(m, l.pending[k], ring) + LoadAll(m, one[1..], ring);
    assert LoadAll(m, one, ring) == LoadOne(m, l.pending[k], ring);
    if k == 0 {
      assert before == [] && before + after == after && before + (one + after) == one + after;
      Regroup(l.origins, LoadOne(m, l.pending[0], ring), LoadAll(m, after, ring));
    }
  }

  /** In whatever order the lookups finish, the provider ends up with the same accounts, each as often;
      if they finish in the order in which they were started, with the same list. */
  lemma {:induction false} LookupsInAnyOrder(m: Machine, ring: Keyring, l: Loading, choices: seq<nat>)
    requires CanFinish(|l.pending|, choices)
    ensures var n := FinishAll(m, ring, l, choices);
            && |n.pending| == |l.pending| - |choices|
            && multiset(n.origins) + multiset(LoadAll(m, n.pending, ring))
               == multiset(l.origins) + multiset(LoadAll(m, l.pending, ring))
            && ((forall i :: 0 <= i < |choices| ==> choices[i] == 0) ==>
                  n.origins + LoadAll(m, n.pending, ring) == l.origins + LoadAll(m, l.pending, ring))
    decreases |choices|
  {
    if choices != [] {
      FinishConserves(m, ring, l, choices[0]);
      LookupsInAnyOrder(m, ring, Finished(m, ring, l, choices[0]), choices[1..]);
    }
  }

  function InOrder(n: nat): (choices: seq<nat>)
    ensures |choices| == n && forall k :: 0 <= k < n ==> choices[k] == 0
  {
    seq(n, k requires 0 <= k < n => 0)
  }

  lemma {:induction false} InOrderCanFinish(n: nat)
    ensures CanFinish(n, InOrder(n))
  {
    if n > 0 {
      InOrderCanFinish(n - 1);
      assert InOrder(n)[1..] == InOrder(n - 1);
    }
  }

  /** Lookups that finish in the order in which they were started load the accounts of the file in file order, and
      leave none pending. */
  lemma LookupsInOrder(m: Machine, ring: Keyring, file: KeyFile)
    ensures CanFinish(|file|, InOrder(|file|))
    ensures FinishAll(m, ring, Loading([], file), InOrder(|file|)) == Loading(LoadAll(m, file, ring), [])
  {
    InOrderCanFinish(|file|);
    LookupsInAnyOrder(m, ring, Loading([], file), InOrder(|file|));
    var all, n := LoadAll(m, file, ring), FinishAll(m, ring, Loading([], file), InOrder(|file|));
    assert n.pending == [] && LoadAll(m, n.pending, ring) == [];
    assert [] + all == all && n.origins + [] == n.origins;
  }

  lemma Regroup(a: seq<Account>, b: seq<Account>, c: seq<Account>)
    ensures a + (b + c) == a + b + c
  {
  }

  // ----- The provider -----

  class SipProvider {
    const machine: Machine
    var origins: seq<Account>
    ghost var pending: seq<Named>

    ghost function View(): Loading
      reads this
    {
      Loading(origins, pending)
    }

    ghost predicate Valid()
      reads this
    {
      AllSteady(origins)
    }

    constructor (machine: Machine)
      ensures this.machine == machine && View() == Loading([], []) && Valid()
    {
      this.machine, origins, pending := machine, [], [];
    }

    /** `add_origin_full`; a protocol that is not valid adds nothing. */
    method AddOriginFull(a: Account) returns (ok: bool)
      requires Valid() && Addable(a)
      modifies this`origins
      ensures Valid() && (ok <==> ValidProtocol(a.protocol))
      ensures origins == old(origins) + if ok then [Made(machine, a)] else []
    {
      if !ValidProtocol(a.protocol) {
        return false;
      }
      MadeIsSteady(machine, a);
      var origin := NewOrigin(a);
      origins := origins + [origin];
      return true;
    }

    /** The properties of a new origin one after the other, then its `constructed`. */
    method NewOrigin(a: Account) returns (origin: Account)
      requires Addable(a)
      ensures origin == Made(machine, a)
    {
      origin := a.(port := 0, localPort := 0, mediaEncryption := 0);
      if 0 <= a.port <= 65535 {
        origin := origin.(port := a.port);
      }
      if 0 <= a.localPort <= 65535 && !(0 < a.localPort < 1025) {
        origin := origin.(localPort := a.localPort);
      }
      if 0 <= a.mediaEncryption <= 2 {
        origin := origin.(mediaEncryption := a.mediaEncryption);
      }
      if origin.direct {
        if origin.user == None {
          origin := origin.(user := Some(machine.user));
        }
        origin := origin.(host := Some(machine.host), password := None, protocol := "UDP");
      }
    }

    /** One of the pending lookups reports its password, if there is one. */
    method OnPasswordLookedUp(data: Named, password: Option<string>, ghost k: nat, ghost ring: Keyring)
      requires Valid() && k < |pending| && pending[k] == data
      requires password == LookedUp(ring, data.group.host, data.group.user)
      modifies this
      ensures Valid() && View() == Finished(machine, ring, old(View()), k)
    {
      pending := pending[..k] + pending[k + 1..];
      var a := Restored(data.name, data.group, password);
      if !a.direct && password.None? {
        return;
      }
      if !a.direct && (!Filled(a.host) || !Filled(a.user) || !Filled(a.password)) {
        return;
      }
      var ok := AddOriginFull(a);
    }

    /** Starts a lookup for each group. */
    method LoadAccounts(file: KeyFile)
      modifies this`pending
      ensures pending == old(pending) + file
    {
      for i := 0 to |file|
        invariant pending == old(pending) + file[..i]
      {
        pending := pending + [file[i]];
      }
    }

    method SaveAccounts(file: KeyFile, ring: Keyring) returns (newFile: KeyFile, newRing: Keyring)
      ensures newFile == SaveFrom(origins, 0, file) && newRing == StoreFrom(origins, 0, ring)
    {
      newFile, newRing := file, ring;
      for i := 0 to |origins|
        invariant SaveFrom(origins, i, newFile) == SaveFrom(origins, 0, file)
        invariant StoreFrom(origins, i, newRing) == StoreFrom(origins, 0, ring)
      {
        newFile := Put(newFile, GroupName(i), GroupOf(origins[i]));
        newRing := Stored(newRing, origins[i]);
      }
    }
  }
}
