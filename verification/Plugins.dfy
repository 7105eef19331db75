/** Plugins, the providers of the loaded ones, and the manager's list of their origin lists; and the
    action that brings the loaded plugins in line with a list of names. */
module Plugins {
  import opened CallStates

  type ProviderId = nat

  /** The list of origins that belongs to a provider. */
  datatype OriginList = OriginsOf(provider: ProviderId)

  datatype Plugin = Plugin(name: string, loaded: bool, provider: Option<ProviderId>)

  datatype Registry = Registry(
    plugins: seq<Plugin>,
    providers: seq<ProviderId>,
    lists: seq<OriginList>,
    next: ProviderId)

  /** What the plugin engine makes of a request to load. */
  datatype Outcome = CannotLoad | NoProvider | CannotCreate | Provides

  // ----- Lists -----

  function Splice<T>(s: seq<T>, position: nat, removed: nat, added: seq<T>): seq<T>
    requires position + removed <= |s|
  {
    s[..position] + added + s[position + removed..]
  }

  /** A splice replaces `removed` elements from `position` on by the added ones, and moves what follows. */
  lemma SpliceAt<T>(s: seq<T>, position: nat, removed: nat, added: seq<T>, k: nat)
    requires position + removed <= |s|
    ensures var t := Splice(s, position, removed, added);
            && |t| == |s| - removed + |added|
            && (k < position ==> t[k] == s[k])
            && (position <= k < position + |added| ==> t[k] == added[k - position])
            && (position + |added| <= k < |t| ==> t[k] == s[k - |added| + removed])
  {
  }

  function Lists(providers: seq<ProviderId>): seq<OriginList>
  {
    seq(|providers|, i requires 0 <= i < |providers| => OriginsOf(providers[i]))
  }

  /** `on_providers_changed`: the same splice, applied to the origin lists of the added providers, keeps
      the two lists equal index by index. */
  lemma SpliceKeepsMirror(providers: seq<ProviderId>, position: nat, removed: nat, added: seq<ProviderId>)
    requires position + removed <= |providers|
    ensures Splice(Lists(providers), position, removed, Lists(added))
         == Lists(Splice(providers, position, removed, added))
  {
  }

  function IndexOf(plugins: seq<Plugin>, name: string): (r: Option<nat>)
    ensures r.None? <==> forall k :: 0 <= k < |plugins| ==> plugins[k].name != name
    ensures r.Some? ==> r.value < |plugins| && plugins[r.value].name == name
                        && forall j :: 0 <= j < r.value ==> plugins[j].name != name
  {
    if plugins == [] then None
    else if plugins[0].name == name then Some(0)
    else
      var rest := IndexOf(plugins[1..], name);
      assert forall k :: 0 < k < |plugins| ==> plugins[k] == plugins[1..][k - 1];
      if rest.None? then None else Some(rest.value + 1)
  }

  function Position(providers: seq<ProviderId>, p: ProviderId): (r: Option<nat>)
    ensures r.None? <==> p !in providers
    ensures r.Some? ==> r.value < |providers| && providers[r.value] == p
  {
    if providers == [] then None
    else if providers[0] == p then Some(0)
    else
      var rest := Position(providers[1..], p);
      assert forall k :: 0 < k < |providers| ==> providers[k] == providers[1..][k - 1];
      if rest.None? then None else Some(rest.value + 1)
  }

  // ----- Loading and unloading -----

  /** A change of the provider store, which the manager's list follows. */
  function Changed(r: Registry, position: nat, removed: nat, added: seq<ProviderId>): Registry
    requires position + removed <= |r.providers| && |r.lists| == |r.providers|
  {
    r.(providers := Splice(r.providers, position, removed, added),
       lists := Splice(r.lists, position, removed, Lists(added)))
  }

  /** The handler of the plugin's "loaded" property. It sees the plugin as it is when the flag changes. */
  function OnPluginLoaded(r: Registry, p: Plugin): Registry
    requires |r.lists| == |r.providers|
  {
    match p.provider
    case None => r
    case Some(provider) =>
      if p.loaded then Changed(r, |r.providers|, 0, [provider])
      else
        match Position(r.providers, provider)
        case Some(position) => Changed(r, position, 1, [])
        case None => r
  }

  /** The provider is set before the flag, so that the handler finds it. */
  function Load(r: Registry, i: nat, outcome: Outcome): Registry
    requires i < |r.plugins| && |r.lists| == |r.providers|
  {
    if r.plugins[i].loaded || !outcome.Provides? then r
    else
      var p := r.plugins[i].(provider := Some(r.next), loaded := true);
      OnPluginLoaded(r.(plugins := r.plugins[i := p], next := r.next + 1), p)
  }

  /** The provider is cleared after the flag, for the same reason. */
  function Unload(r: Registry, i: nat, ok: bool): Registry
    requires i < |r.plugins| && |r.lists| == |r.providers|
  {
    if !r.plugins[i].loaded || !ok then r
    else
      var p := r.plugins[i].(loaded := false);
      OnPluginLoaded(r, p).(plugins := r.plugins[i := p.(provider := None)])
  }

  function LoadByName(r: Registry, name: string, outcome: Outcome): Registry
    requires |r.lists| == |r.providers|
  {
    match IndexOf(r.plugins, name)
    case None => r
    case Some(i) => Load(r, i, outcome)
  }

  function UnloadByName(r: Registry, name: string, ok: bool): Registry
    requires |r.lists| == |r.providers|
  {
    match IndexOf(r.plugins, name)
    case None => r
    case Some(i) => Unload(r, i, ok)
  }

  predicate HasPlugin(r: Registry, name: string)
  {
    var i := IndexOf(r.plugins, name);
    i.Some? && r.plugins[i.value].loaded
  }

  // ----- The indices agree -----

  ghost predicate PluginOk(r: Registry, i: nat)
    requires i < |r.plugins|
  {
    var p := r.plugins[i];
    && (p.loaded <==> p.provider.Some?)
    && (p.loaded ==> p.provider.value in r.providers && p.provider.value < r.next)
  }

  ghost predicate Owned(r: Registry, provider: ProviderId)
  {
    exists i :: 0 <= i < |r.plugins| && r.plugins[i].provider == Some(provider)
  }

  /** The store holds exactly the providers of the loaded plugins, each once, and the manager lists their
      origin lists in the same order. */
  ghost predicate Inv(r: Registry)
  {
    && (forall i :: 0 <= i < |r.plugins| ==> r.plugins[i].name != "")
    && (forall i, j :: 0 <= i < j < |r.plugins| ==> r.plugins[i].name != r.plugins[j].name)
    && (forall i, j :: 0 <= i < j < |r.plugins| && r.plugins[i].loaded ==>
          r.plugins[i].provider != r.plugins[j].provider)
    && (forall i :: 0 <= i < |r.plugins| ==> PluginOk(r, i))
    && (forall k :: 0 <= k < |r.providers| ==> Owned(r, r.providers[k]))
    && NoDuplicates(r.providers)
    && r.lists == Lists(r.providers)
  }

  lemma HasPluginIff(r: Registry, name: string)
    requires Inv(r)
    ensures HasPlugin(r, name) <==> exists j :: 0 <= j < |r.plugins| && r.plugins[j].name == name && r.plugins[j].loaded
  {
  }

  lemma LoadKeepsInv(r: Registry, i: nat, outcome: Outcome)
    requires Inv(r) && i < |r.plugins|
    ensures Inv(Load(r, i, outcome))
    ensures forall j :: 0 <= j < |r.plugins| && j != i ==> Load(r, i, outcome).plugins[j] == r.plugins[j]
    ensures Load(r, i, outcome).plugins[i].loaded <==> r.plugins[i].loaded || outcome.Provides?
    ensures Load(r, i, outcome).plugins[i].name == r.plugins[i].name
  {
    var v := Load(r, i, outcome);
    if !r.plugins[i].loaded && outcome.Provides? {
      SpliceKeepsMirror(r.providers, |r.providers|, 0, [r.next]);
      assert v.providers == r.providers + [r.next];
      assert PluginOk(r, i);
      forall j | 0 <= j < |r.plugins| ensures PluginOk(v, j) {
        assert PluginOk(r, j);
      }
      forall k | 0 <= k < |r.providers| ensures r.providers[k] < r.next && Owned(v, r.providers[k]) {
        assert Owned(r, r.providers[k]);
        var j :| 0 <= j < |r.plugins| && r.plugins[j].provider == Some(r.providers[k]);
        assert PluginOk(r, j);
        assert v.plugins[j] == r.plugins[j];
      }
      assert v.plugins[i].provider == Some(r.next);
      assert Owned(v, r.next);
      forall j | 0 <= j < |r.plugins| && j != i ensures r.plugins[j].provider != Some(r.next) {
        assert PluginOk(r, j);
      }
    }
  }

  lemma RemoveAtKeepsDistinct(providers: seq<ProviderId>, position: nat)
    requires NoDuplicates(providers) && position < |providers|
    ensures NoDuplicates(Splice(providers, position, 1, []))
    ensures forall p :: p in Splice(providers, position, 1, []) <==> p in providers && p != providers[position]
  {
    var rest := Splice(providers, position, 1, []);
    assert rest == providers[..position] + providers[position + 1..];
    forall p | p in providers && p != providers[position] ensures p in rest {
      var k :| 0 <= k < |providers| && providers[k] == p;
      assert rest[if k < position then k else k - 1] == p;
    }
  }

  /** Without plugin `i` and its provider, the remaining providers still have their plugins. */
  lemma OthersStillOwned(r: Registry, i: nat, v: Registry)
    requires Inv(r) && i < |r.plugins| && r.plugins[i].loaded && r.plugins[i].provider.Some?
    requires v.plugins == r.plugins[i := Plugin(r.plugins[i].name, false, None)]
    requires forall p :: p in v.providers ==> p in r.providers && p != r.plugins[i].provider.value
    ensures forall k :: 0 <= k < |v.providers| ==> Owned(v, v.providers[k])
  {
    forall k | 0 <= k < |v.providers| ensures Owned(v, v.providers[k]) {
      assert v.providers[k] in v.providers;
      var was :| 0 <= was < |r.providers| && r.providers[was] == v.providers[k];
      assert Owned(r, r.providers[was]);
      var j :| 0 <= j < |r.plugins| && r.plugins[j].provider == Some(r.providers[was]);
      assert v.plugins[j] == r.plugins[j];
    }
  }

  lemma UnloadKeepsInv(r: Registry, i: nat, ok: bool)
    requires Inv(r) && i < |r.plugins|
    ensures Inv(Unload(r, i, ok))
    ensures forall j :: 0 <= j < |r.plugins| && j != i ==> Unload(r, i, ok).plugins[j] == r.plugins[j]
    ensures Unload(r, i, ok).plugins[i].loaded <==> r.plugins[i].loaded && !ok
    ensures Unload(r, i, ok).plugins[i].name == r.plugins[i].name
  {
    if r.plugins[i].loaded && ok {
      assert PluginOk(r, i);
      var gone := r.plugins[i].provider.value;
      var position := Position(r.providers, gone).value;
      var v := r.(plugins := r.plugins[i := Plugin(r.plugins[i].name, false, None)],
                  providers := Splice(r.providers, position, 1, []), lists := Splice(r.lists, position, 1, []));
      assert Unload(r, i, ok) == v;
      assert Lists([]) == [];
      SpliceKeepsMirror(r.providers, position, 1, []);
      assert v.lists == Lists(v.providers);
      RemoveAtKeepsDistinct(r.providers, position);
      forall j | 0 <= j < |r.plugins| ensures PluginOk(v, j) {
        assert PluginOk(r, j);
      }
      OthersStillOwned(r, i, v);
      forall a, b | 0 <= a < b < |v.plugins| && v.plugins[a].loaded
        ensures v.plugins[a].provider != v.plugins[b].provider
      {
        assert PluginOk(v, a) && PluginOk(v, b);
      }
    }
  }

  /** Loading makes the engine's provider the last of the store and its origins the last of the manager's lists; a
      plugin that is loaded, or for which there is no provider, is left alone. */
  lemma LoadMeans(r: Registry, i: nat, outcome: Outcome)
    requires Inv(r) && i < |r.plugins|
    ensures Load(r, i, outcome) ==
            if r.plugins[i].loaded || outcome != Provides then r
            else Registry(r.plugins[i := Plugin(r.plugins[i].name, true, Some(r.next))], r.providers + [r.next],
                          r.lists + [OriginsOf(r.next)], r.next + 1)
  {
    assert Lists([r.next]) == [OriginsOf(r.next)];
    assert Splice(r.providers, |r.providers|, 0, [r.next]) == r.providers + [r.next];
    assert Splice(r.lists, |r.lists|, 0, [OriginsOf(r.next)]) == r.lists + [OriginsOf(r.next)];
  }

  /** Unloading takes the plugin's provider and its origins out, and leaves the others in their order. */
  lemma UnloadMeans(r: Registry, i: nat, ok: bool, k: nat)
    requires Inv(r) && i < |r.plugins|
    requires r.plugins[i].loaded ==> k < |r.providers| && r.plugins[i].provider == Some(r.providers[k])
    ensures Unload(r, i, ok) ==
            if !r.plugins[i].loaded || !ok then r
            else Registry(r.plugins[i := Plugin(r.plugins[i].name, false, None)],
                          r.providers[..k] + r.providers[k + 1..], r.lists[..k] + r.lists[k + 1..], r.next)
  {
    if r.plugins[i].loaded && ok {
      var position := Position(r.providers, r.providers[k]);
      assert position == Some(k);
      assert Lists([]) == [];
      assert Splice(r.providers, k, 1, []) == r.providers[..k] + r.providers[k + 1..];
      assert Splice(r.lists, k, 1, []) == r.lists[..k] + r.lists[k + 1..];
    }
  }

  lemma ByNameKeepsInv(r: Registry, name: string, outcome: Outcome, ok: bool)
    requires Inv(r)
    ensures Inv(LoadByName(r, name, outcome)) && Inv(UnloadByName(r, name, ok))
    ensures |LoadByName(r, name, outcome).plugins| == |r.plugins| == |UnloadByName(r, name, ok).plugins|
    ensures forall j :: 0 <= j < |r.plugins| ==>
              var p, l := r.plugins[j], LoadByName(r, name, outcome).plugins[j];
              var u := UnloadByName(r, name, ok).plugins[j];
              && l.name == p.name == u.name
              && (l.loaded <==> p.loaded || (p.name == name && outcome.Provides?))
              && (u.loaded <==> p.loaded && !(p.name == name && ok))
  {
    var i := IndexOf(r.plugins, name);
    if i.Some? {
      LoadKeepsInv(r, i.value, outcome);
      UnloadKeepsInv(r, i.value, ok);
    }
  }

  // ----- The reconcile action -----

  /** The first loop: every known plugin from the i-th on whose name is not wanted is unloaded. */
  function UnloadUnwanted(r: Registry, known: seq<string>, names: seq<string>, ok: nat -> bool, i: nat): Registry
    requires Inv(r) && i <= |known|
    decreases |known| - i
  {
    if i == |known| then r
    else
      ByNameKeepsInv(r, known[i], CannotLoad, ok(i));
      UnloadUnwanted(if known[i] in names then r else UnloadByName(r, known[i], ok(i)), known, names, ok, i + 1)
  }

  /** The second loop: every wanted name from the k-th on that is not loaded is tried. Loading an empty name
      fails without setting an error; the loop reads the message of that error, and the program crashes:
      there is no registry then. */
  function LoadWanted(r: Registry, names: seq<string>, outcome: nat -> Outcome, k: nat): Option<Registry>
    requires Inv(r) && k <= |names|
    decreases |names| - k
  {
    if k == |names| then Some(r)
    else if names[k] == "" then None
    else
      ByNameKeepsInv(r, names[k], outcome(k), false);
      LoadWanted(if HasPlugin(r, names[k]) then r else LoadByName(r, names[k], outcome(k)), names, outcome, k + 1)
  }

  function NamesOf(plugins: seq<Plugin>): seq<string>
  {
    seq(|plugins|, i requires 0 <= i < |plugins| => plugins[i].name)
  }

  ghost predicate SameNames(r: Registry, v: Registry)
  {
    |v.plugins| == |r.plugins| && forall j :: 0 <= j < |r.plugins| ==> v.plugins[j].name == r.plugins[j].name
  }

  lemma NamesStay(r: Registry, v: Registry)
    requires SameNames(r, v)
    ensures NamesOf(r.plugins) == NamesOf(v.plugins)
  {
  }

  /** One turn of the first loop. */
  lemma UnloadNext(r: Registry, known: seq<string>, names: seq<string>, ok: nat -> bool, i: nat)
    requires Inv(r) && i < |known| && known == NamesOf(r.plugins)
    ensures var next := if known[i] in names then r else UnloadByName(r, known[i], ok(i));
            && Inv(next) && SameNames(r, next) && known == NamesOf(next.plugins)
            && forall j :: 0 <= j < |r.plugins| ==>
                 (next.plugins[j].loaded <==> r.plugins[j].loaded && !(j == i && known[j] !in names && ok(j)))
  {
    ByNameKeepsInv(r, known[i], CannotLoad, ok(i));
    var next := if known[i] in names then r else UnloadByName(r, known[i], ok(i));
    NamesStay(r, next);
    forall j | 0 <= j < |r.plugins|
      ensures next.plugins[j].loaded <==> r.plugins[j].loaded && !(j == i && known[j] !in names && ok(j))
    {
      assert known[j] == r.plugins[j].name && known[i] == r.plugins[i].name;
    }
  }

  lemma {:induction false} UnwantedAreUnloaded(r: Registry, known: seq<string>, names: seq<string>,
                                               ok: nat -> bool, i: nat)
    requires Inv(r) && i <= |known| && known == NamesOf(r.plugins)
    ensures var v := UnloadUnwanted(r, known, names, ok, i);
            && Inv(v) && SameNames(r, v)
            && forall j :: 0 <= j < |r.plugins| ==>
                 (v.plugins[j].loaded <==> r.plugins[j].loaded && !(j >= i && known[j] !in names && ok(j)))
    decreases |known| - i
  {
    if i < |known| {
      UnloadNext(r, known, names, ok, i);
      var next := if known[i] in names then r else UnloadByName(r, known[i], ok(i));
      UnwantedAreUnloaded(next, known, names, ok, i + 1);
    }
  }

  ghost predicate SomeAttempt(names: seq<string>, outcome: nat -> Outcome, k: nat, name: string)
  {
    exists m :: k <= m < |names| && names[m] == name && outcome(m).Provides?
  }

  /** One turn of the second loop. */
  lemma LoadNext(r: Registry, names: seq<string>, outcome: nat -> Outcome, k: nat)
    requires Inv(r) && k < |names|
    ensures var next := if HasPlugin(r, names[k]) then r else LoadByName(r, names[k], outcome(k));
            && Inv(next) && SameNames(r, next)
            && forall j :: 0 <= j < |r.plugins| ==>
                 (next.plugins[j].loaded <==>
                    r.plugins[j].loaded || (r.plugins[j].name == names[k] && outcome(k).Provides?))
  {
    ByNameKeepsInv(r, names[k], outcome(k), false);
    forall j | 0 <= j < |r.plugins| && r.plugins[j].name == names[k] ensures IndexOf(r.plugins, names[k]) == Some(j) {
    }
  }

  lemma {:induction false} WantedAreTried(r: Registry, names: seq<string>, outcome: nat -> Outcome, k: nat)
    requires Inv(r) && k <= |names|
    ensures var v := LoadWanted(r, names, outcome, k);
            && (v.Some? <==> "" !in names[k..])
            && (v.Some? ==>
                  && Inv(v.value) && SameNames(r, v.value)
                  && forall j :: 0 <= j < |r.plugins| ==>
                       (v.value.plugins[j].loaded <==>
                          r.plugins[j].loaded || SomeAttempt(names, outcome, k, r.plugins[j].name)))
    decreases |names| - k
  {
    if k < |names| {
      assert names[k..][0] == names[k] && names[k..][1..] == names[k + 1..];
      if names[k] != "" {
        LoadNext(r, names, outcome, k);
        var next := if HasPlugin(r, names[k]) then r else LoadByName(r, names[k], outcome(k));
        WantedAreTried(next, names, outcome, k + 1);
      }
    }
  }

  /** The whole action, if the program survives it. */
  function Reconciled(r: Registry, names: seq<string>, ok: nat -> bool, outcome: nat -> Outcome): Option<Registry>
    requires Inv(r)
  {
    if names == [] then Some(r)
    else
      UnwantedAreUnloaded(r, NamesOf(r.plugins), names, ok, 0);
      LoadWanted(UnloadUnwanted(r, NamesOf(r.plugins), names, ok, 0), names, outcome, 0)
  }

  /** An empty list of names changes nothing. With any other list the action crashes the program exactly if an
      empty name is asked for. Otherwise a known plugin is loaded exactly if it was wanted and was loaded or could
      be, or was not wanted but was loaded and could not be unloaded; and the indices still agree. */
  lemma ReconciledIff(r: Registry, names: seq<string>, ok: nat -> bool, outcome: nat -> Outcome)
    requires Inv(r)
    ensures var v := Reconciled(r, names, ok, outcome);
            && (names == [] ==> v == Some(r))
            && (v.None? <==> "" in names)
            && (names != [] && v.Some? ==>
                  && Inv(v.value) && SameNames(r, v.value)
                  && forall j :: 0 <= j < |r.plugins| ==>
                       (v.value.plugins[j].loaded <==>
                          if r.plugins[j].name in names
                          then r.plugins[j].loaded || SomeAttempt(names, outcome, 0, r.plugins[j].name)
                          else r.plugins[j].loaded && !ok(j)))
  {
    UnwantedAreUnloaded(r, NamesOf(r.plugins), names, ok, 0);
    WantedAreTried(UnloadUnwanted(r, NamesOf(r.plugins), names, ok, 0), names, outcome, 0);
    assert names[0..] == names;
  }

  /** With an engine that never fails, a known plugin ends up loaded exactly if its name was asked for. */
  lemma NoFailureMeansExact(r: Registry, names: seq<string>, ok: nat -> bool, outcome: nat -> Outcome)
    requires Inv(r) && names != [] && (forall i :: ok(i)) && (forall k :: outcome(k).Provides?)
    ensures var v := Reconciled(r, names, ok, outcome);
            && (v.None? <==> "" in names)
            && (v.Some? ==>
                  && |v.value.plugins| == |r.plugins|
                  && forall j :: 0 <= j < |r.plugins| ==> (v.value.plugins[j].loaded <==> r.plugins[j].name in names))
  {
    ReconciledIff(r, names, ok, outcome);
    forall j | 0 <= j < |r.plugins| && r.plugins[j].name in names
      ensures SomeAttempt(names, outcome, 0, r.plugins[j].name)
    {
      var m :| 0 <= m < |names| && names[m] == r.plugins[j].name;
      assert outcome(m).Provides?;
    }
  }

  class PluginManager {
    var plugins: seq<Plugin>
    var providers: seq<ProviderId>
    var lists: seq<OriginList>
    var next: ProviderId

    ghost function View(): Registry
      reads this
    {
      Registry(plugins, providers, lists, next)
    }

    ghost predicate Valid()
      reads this
    {
      Inv(View())
    }

    /** The plugins the engine found, none of them loaded. */
    constructor (names: seq<string>)
      requires NoDuplicates(names) && "" !in names
      ensures Valid() && NamesOf(plugins) == names && providers == []
    {
      plugins := seq(|names|, i requires 0 <= i < |names| => Plugin(names[i], false, None));
      providers, lists, next := [], [], 0;
      new;
      assert forall i :: 0 <= i < |plugins| ==> PluginOk(View(), i);
      assert NamesOf(plugins) == names;
    }

    method FindPluginByName(name: string) returns (found: Option<nat>)
      ensures found == IndexOf(plugins, name)
    {
      for i := 0 to |plugins|
        invariant forall k :: 0 <= k < i ==> plugins[k].name != name
      {
        if plugins[i].name == name {
          return Some(i);
        }
      }
      return None;
    }

    /** The manager's handler of a change in the provider store. */
    method OnProvidersChanged(position: nat, removed: nat, added: nat)
      requires position + removed <= |lists| && position + added <= |providers|
      modifies this`lists
      ensures lists == Splice(old(lists), position, removed, Lists(providers[position..position + added]))
    {
      var originsAdd: seq<OriginList> := [];
      for i := 0 to added
        invariant lists == old(lists) && originsAdd == Lists(providers[position..position + i])
      {
        originsAdd := originsAdd + [OriginsOf(providers[position + i])];
      }
      lists := Splice(lists, position, removed, originsAdd);
    }

    method OnLoaded(p: Plugin)
      requires lists == Lists(providers)
      modifies this`providers, this`lists
      ensures View() == OnPluginLoaded(old(View()), p)
    {
      if p.provider == None {
        return;
      }
      if p.loaded {
        providers := providers + [p.provider.value];
        OnProvidersChanged(|providers| - 1, 0, 1);
        assert providers[|providers| - 1..] == [p.provider.value];
        assert providers == Splice(old(providers), |old(providers)|, 0, [p.provider.value]);
      } else {
        var position := Position(providers, p.provider.value);
        if position.Some? {
          providers := Splice(providers, position.value, 1, []);
          OnProvidersChanged(position.value, 1, 0);
          assert providers[position.value..position.value] == [];
        }
      }
    }

    method LoadPlugin(name: string, outcome: Outcome) returns (ok: bool)
      requires Valid()
      modifies this
      ensures View() == LoadByName(old(View()), name, outcome) && Valid()
      ensures ok <==> HasPlugin(View(), name)
    {
      ByNameKeepsInv(View(), name, outcome, false);
      var i := FindPluginByName(name);
      if i == None {
        return false;
      }
      var p := plugins[i.value];
      if p.loaded {
        return true;
      }
      if outcome != Provides {
        return false;
      }
      plugins := plugins[i.value := p.(provider := Some(next))];
      next := next + 1;
      plugins := plugins[i.value := plugins[i.value].(loaded := true)];
      OnLoaded(plugins[i.value]);
      LoadKeepsInv(old(View()), i.value, outcome);
      return true;
    }

    method UnloadPlugin(name: string, engineOk: bool) returns (ok: bool)
      requires Valid()
      modifies this
      ensures View() == UnloadByName(old(View()), name, engineOk) && Valid()
    {
      ByNameKeepsInv(View(), name, CannotLoad, engineOk);
      var i := FindPluginByName(name);
      if i == None {
        return false;
      }
      var p := plugins[i.value];
      if !p.loaded {
        return true;
      }
      if !engineOk {
        return false;
      }
      plugins := plugins[i.value := p.(loaded := false)];
      OnLoaded(plugins[i.value]);
      plugins := plugins[i.value := plugins[i.value].(provider := None)];
      return true;
    }

    /** The first loop of the action, over the names known when it starts. */
    method UnloadUnwantedPlugins(names: seq<string>, ok: nat -> bool)
      requires Valid()
      modifies this
      ensures Valid() && View() == UnloadUnwanted(old(View()), NamesOf(old(plugins)), names, ok, 0)
    {
      var known := NamesOf(plugins);
      for i := 0 to |known|
        invariant Valid()
        invariant UnloadUnwanted(View(), known, names, ok, i) == UnloadUnwanted(old(View()), known, names, ok, 0)
      {
        if known[i] !in names {
          var unloaded := UnloadPlugin(known[i], ok(i));
        }
      }
    }

    /** The second loop; it does not survive an empty name. */
    method LoadWantedPlugins(names: seq<string>, outcome: nat -> Outcome) returns (crashed: bool)
      requires Valid()
      modifies this
      ensures Valid() && (crashed <==> "" in names)
      ensures LoadWanted(old(View()), names, outcome, 0) == if crashed then None else Some(View())
    {
      for k := 0 to |names|
        invariant Valid() && "" !in names[..k]
        invariant LoadWanted(View(), names, outcome, k) == LoadWanted(old(View()), names, outcome, 0)
      {
        if names[k] == "" {
          return true;
        }
        var i := FindPluginByName(names[k]);
        if i.Some? && plugins[i.value].loaded {
          continue;
        }
        var loaded := LoadPlugin(names[k], outcome(k));
      }
      return false;
    }

    /** The action. `ok` and `outcome` say how the engine answers each attempt. */
    method SetPluginNames(names: seq<string>, ok: nat -> bool, outcome: nat -> Outcome) returns (crashed: bool)
      requires Valid()
      modifies this
      ensures Valid() && (crashed <==> "" in names)
      ensures Reconciled(old(View()), names, ok, outcome) == if crashed then None else Some(View())
    {
      if names == [] {
        return false;
      }
      UnloadUnwantedPlugins(names, ok);
      crashed := LoadWantedPlugins(names, outcome);
    }
  }
}
