/** Model bindings shared by any number of goroutines (internal/provider/registry.go). What the registry holds
    is the effect of a log with one entry for each critical section that changed it. */
module Registry {
  import opened Base
  import opened Profiles

  datatype Definition = Definition(name: string, apiKey: string)

  datatype Config = Config(name: string, model: string, apiKey: string, temperature: int)

  /** A model: which factory made it, from what, and which of its makings it is. */
  datatype Model = Model(factory: nat, config: Config, serial: nat)

  datatype Entry =
    | Registered(caller: nat, name: string, factory: nat)
    | Bound(caller: nat, profile: Profile, definition: Definition, model: Model)
    | Replaced(caller: nat, profiles: seq<Profile>, definitions: seq<Definition>, snapshot: map<string, Model>)

  // ---------- The log ----------

  function Factories(log: seq<Entry>): map<string, nat> {
    if log == [] then map[]
    else
      var before := Factories(log[..|log| - 1]);
      match log[|log| - 1]
      case Registered(_, name, factory) => before[name := factory]
      case _ => before
  }

  function Models(log: seq<Entry>): map<string, Model> {
    if log == [] then map[]
    else
      var before := Models(log[..|log| - 1]);
      match log[|log| - 1]
      case Registered(_, _, _) => before
      case Bound(_, profile, _, model) => before[profile.name := model]
      case Replaced(_, _, _, snapshot) => snapshot
  }

  /** The model was made by the factory of the profile's provider, from the profile and the definition of that
      same provider. */
  predicate BuiltFrom(factories: map<string, nat>, profile: Profile, definition: Definition, model: Model) {
    && definition.name == profile.providerName && profile.providerName in factories
    && model.factory == factories[profile.providerName]
    && model.config == Config(definition.name, profile.model, definition.apiKey, profile.temperature)
  }

  predicate BuiltFromOne(factories: map<string, nat>, profile: Profile, definitions: seq<Definition>, model: Model) {
    exists k | 0 <= k < |definitions| :: BuiltFrom(factories, profile, definitions[k], model)
  }

  /** Exactly the profiles' names have a model, each one of a profile with that name. */
  predicate SnapshotOf(factories: map<string, nat>, profiles: seq<Profile>, definitions: seq<Definition>,
    snapshot: map<string, Model>) {
    && (forall k | 0 <= k < |profiles| :: profiles[k].name in snapshot)
    && (forall name | name in snapshot :: exists k | 0 <= k < |profiles| ::
          profiles[k].name == name && BuiltFromOne(factories, profiles[k], definitions, snapshot[name]))
  }

  /** What an entry may be, given those before it: nothing that is there is overwritten, except by a whole snapshot. */
  predicate Admits(log: seq<Entry>, e: Entry) {
    match e
    case Registered(_, name, factory) => name !in Factories(log) && !Blank(name)
    case Bound(_, profile, definition, model) =>
      profile.name !in Models(log) && BuiltFrom(Factories(log), profile, definition, model)
    case Replaced(_, profiles, definitions, snapshot) => SnapshotOf(Factories(log), profiles, definitions, snapshot)
  }

  predicate Legal(log: seq<Entry>) {
    log == [] || (Legal(log[..|log| - 1]) && Admits(log[..|log| - 1], log[|log| - 1]))
  }

  lemma LogAppend(log: seq<Entry>, e: Entry)
    ensures Legal(log + [e]) <==> Legal(log) && Admits(log, e)
    ensures Factories(log + [e]) == if e.Registered? then Factories(log)[e.name := e.factory] else Factories(log)
    ensures Models(log + [e]) == match e
      case Registered(_, _, _) => Models(log)
      case Bound(_, profile, _, model) => Models(log)[profile.name := model]
      case Replaced(_, _, _, snapshot) => snapshot
  {
    assert (log + [e])[..|log|] == log;
  }

  lemma {:induction false} LegalAt(log: seq<Entry>, k: nat)
    requires Legal(log) && k < |log|
    ensures Legal(log[..k]) && Admits(log[..k], log[k])
  {
    if k < |log| - 1 {
      LegalAt(log[..|log| - 1], k);
      assert log[..|log| - 1][..k] == log[..k];
    }
  }

  /** Factories once registered stay. */
  lemma {:induction false} FactoriesStay(log: seq<Entry>, i: nat, name: string)
    requires Legal(log) && i <= |log| && name in Factories(log[..i])
    ensures name in Factories(log) && Factories(log)[name] == Factories(log[..i])[name]
  {
    if i < |log| {
      assert log[..|log| - 1][..i] == log[..i];
      FactoriesStay(log[..|log| - 1], i, name);
    } else {
      assert log[..i] == log;
    }
  }

  /** No entry from i on, before j, replaces the snapshot. */
  ghost predicate NoReplacement(log: seq<Entry>, i: nat, j: nat)
    requires j <= |log|
  {
    forall k | i <= k < j :: !log[k].Replaced?
  }

  /** A live binding stays what it is until a whole snapshot replaces it. */
  lemma {:induction false} LiveUntilReplaced(log: seq<Entry>, i: nat, name: string)
    requires Legal(log) && i <= |log| && name in Models(log[..i]) && NoReplacement(log, i, |log|)
    ensures name in Models(log) && Models(log)[name] == Models(log[..i])[name]
  {
    if i < |log| {
      assert log[..|log| - 1][..i] == log[..i];
      LiveUntilReplaced(log[..|log| - 1], i, name);
    } else {
      assert log[..i] == log;
    }
  }

  /** Between two snapshots at most one binding of a name succeeds. */
  lemma OneBindingBetweenSnapshots(log: seq<Entry>, i: nat, j: nat)
    requires Legal(log) && i < j < |log| && log[i].Bound? && log[j].Bound? && log[i].profile.name == log[j].profile.name
    ensures exists k :: i < k < j && log[k].Replaced?
  {
    hide Legal, Models, Factories, BuiltFrom;
    var name := log[i].profile.name;
    LegalAt(log, j);
    LegalAt(log, i);
    assert log[..i + 1] == log[..i] + [log[i]];
    LogAppend(log[..i], log[i]);
    hide Admits;
    if NoReplacement(log[..j], i + 1, j) {
      assert log[..j][..i + 1] == log[..i + 1];
      LiveUntilReplaced(log[..j], i + 1, name);
    }
  }

  /** The entry made the model under the name: a binding of a profile of that name with its own definition, or a
      snapshot with a profile of that name and one of the definitions it came with. */
  ghost predicate Makes(factories: map<string, nat>, e: Entry, name: string, model: Model) {
    match e
    case Registered(_, _, _) => false
    case Bound(_, profile, definition, made) =>
      profile.name == name && made == model && BuiltFrom(factories, profile, definition, model)
    case Replaced(_, profiles, definitions, snapshot) =>
      && name in snapshot && snapshot[name] == model
      && exists k | 0 <= k < |profiles| ::
          profiles[k].name == name && BuiltFromOne(factories, profiles[k], definitions, model)
  }

  /** An entry of the log made the model, and no snapshot came after it. */
  ghost predicate MadeAt(log: seq<Entry>, name: string, model: Model, k: nat) {
    k < |log| && Makes(Factories(log), log[k], name, model) && NoReplacement(log, k + 1, |log|)
  }

  lemma MakesStays(before: map<string, nat>, after: map<string, nat>, e: Entry, name: string, model: Model)
    requires Makes(before, e, name, model) && forall f | f in before :: f in after && after[f] == before[f]
    ensures Makes(after, e, name, model)
  {
    if e.Replaced? {
      var k :| 0 <= k < |e.profiles| && e.profiles[k].name == name
        && BuiltFromOne(before, e.profiles[k], e.definitions, model);
      var d :| 0 <= d < |e.definitions| && BuiltFrom(before, e.profiles[k], e.definitions[d], model);
      assert BuiltFrom(after, e.profiles[k], e.definitions[d], model);
    }
  }

  lemma MadeStays(front: seq<Entry>, e: Entry, name: string, model: Model, k: nat)
    requires Legal(front + [e]) && MadeAt(front, name, model, k) && !e.Replaced?
    ensures MadeAt(front + [e], name, model, k)
  {
    LogAppend(front, e);
    hide Legal, Makes, Factories;
    MakesStays(Factories(front), Factories(front + [e]), front[k], name, model);
    assert (front + [e])[k] == front[k];
  }

  lemma MadeNow(front: seq<Entry>, e: Entry, name: string)
    requires Legal(front + [e]) && name in Models(front + [e])
    requires e.Replaced? || (e.Bound? && e.profile.name == name)
    ensures MadeAt(front + [e], name, Models(front + [e])[name], |front|)
  {
    LogAppend(front, e);
    hide Legal, Models, Factories;
    if e.Replaced? {
      var k :| 0 <= k < |e.profiles| && e.profiles[k].name == name &&
        BuiltFromOne(Factories(front), e.profiles[k], e.definitions, e.snapshot[name]);
    }
  }

  /** Every live model was made under its name by an entry of the log, since when no snapshot came: from that
      entry's own profile of that name, a definition given with it, and the factory of the profile's provider. */
  lemma {:induction false} MadeFromItsProfile(log: seq<Entry>, name: string)
    requires Legal(log) && name in Models(log)
    ensures exists k :: MadeAt(log, name, Models(log)[name], k)
  {
    var front, e := log[..|log| - 1], log[|log| - 1];
    assert log == front + [e];
    if e.Replaced? || (e.Bound? && e.profile.name == name) {
      MadeNow(front, e, name);
    } else {
      LogAppend(front, e);
      MadeFromItsProfile(front, name);
      var k :| MadeAt(front, name, Models(front)[name], k);
      MadeStays(front, e, name, Models(front)[name], k);
    }
  }

  // ---------- The registry ----------

  /** Why a binding is refused before the registry is looked at. */
  predicate Acceptable(profile: Profile, definition: Definition) {
    !Blank(profile.name) && profile.providerName == definition.name && !Blank(definition.apiKey)
  }

  /** Every declaration has a name and a credential, and no two have the same name. */
  predicate Declarable(definitions: seq<Definition>) {
    && (forall k | 0 <= k < |definitions| :: !Blank(definitions[k].name) && !Blank(definitions[k].apiKey))
    && (forall j, k | 0 <= j < k < |definitions| :: definitions[j].name != definitions[k].name)
  }

  predicate Declares(definitions: seq<Definition>, name: string) {
    exists k | 0 <= k < |definitions| :: definitions[k].name == name
  }

  /** The definitions under their names. */
  ghost predicate IsIndex(byName: map<string, Definition>, definitions: seq<Definition>) {
    forall name :: (name in byName <==> Declares(definitions, name)) &&
      (name in byName ==> byName[name] in definitions && byName[name].name == name)
  }

  lemma IndexGrows(byName: map<string, Definition>, definitions: seq<Definition>, d: Definition)
    requires IsIndex(byName, definitions)
    ensures IsIndex(byName[d.name := d], definitions + [d])
  {
    var more := definitions + [d];
    assert more[|definitions|] == d;
    forall name ensures Declares(more, name) <==> Declares(definitions, name) || name == d.name {
      assert forall k | 0 <= k < |definitions| :: more[k] == definitions[k];
    }
  }

  lemma DeclarableGrows(definitions: seq<Definition>, d: Definition)
    ensures Declarable(definitions + [d]) <==>
      Declarable(definitions) && !Blank(d.name) && !Blank(d.apiKey) && !Declares(definitions, d.name)
  {
    var more := definitions + [d];
    assert more[|definitions|] == d && forall k | 0 <= k < |definitions| :: more[k] == definitions[k];
  }

  lemma DeclarablePrefix(definitions: seq<Definition>, i: nat)
    requires i <= |definitions| && Declarable(definitions)
    ensures Declarable(definitions[..i])
  {
  }

  method IndexDefinitions(definitions: seq<Definition>) returns (byName: map<string, Definition>, ok: bool)
    ensures ok <==> Declarable(definitions)
    ensures ok ==> IsIndex(byName, definitions)
  {
    byName := map[];
    for i := 0 to |definitions|
      invariant Declarable(definitions[..i]) && IsIndex(byName, definitions[..i])
    {
      var definition := definitions[i];
      assert definitions[..i + 1] == definitions[..i] + [definition];
      DeclarableGrows(definitions[..i], definition);
      IndexGrows(byName, definitions[..i], definition);
      if Declarable(definitions) { DeclarablePrefix(definitions, i + 1); }
      hide Declarable, Declares, IsIndex, Blank;
      assert definition.name in byName <==> Declares(definitions[..i], definition.name) by {
        IndexHas(byName, definitions[..i], definition.name);
      }
      if Blank(definition.name) || Blank(definition.apiKey) { return byName, false; }
      if definition.name in byName { return byName, false; }
      byName := byName[definition.name := definition];
    }
    assert definitions[..|definitions|] == definitions;
    ok := true;
  }

  lemma IndexHas(byName: map<string, Definition>, definitions: seq<Definition>, name: string)
    requires IsIndex(byName, definitions)
    ensures name in byName <==> Declares(definitions, name)
  {
  }

  lemma IndexEntry(byName: map<string, Definition>, definitions: seq<Definition>, name: string)
    requires IsIndex(byName, definitions) && name in byName
    ensures byName[name] in definitions && byName[name].name == name
  {
  }

  /** Every profile's provider is declared and has a factory. */
  ghost predicate Providable(profiles: seq<Profile>, definitions: seq<Definition>, factories: map<string, nat>) {
    forall k | 0 <= k < |profiles| ::
      Declares(definitions, profiles[k].providerName) && profiles[k].providerName in factories
  }

  lemma ProvidableGrows(profiles: seq<Profile>, i: nat, definitions: seq<Definition>, factories: map<string, nat>)
    requires i < |profiles| && Providable(profiles[..i], definitions, factories)
    ensures var name := profiles[i].providerName;
      if Declares(definitions, name) && name in factories then Providable(profiles[..i + 1], definitions, factories)
      else !Providable(profiles, definitions, factories)
  {
  }

  /** What is ordered for a profile: of its provider's factory, with its own settings. */
  predicate OrderFor(factories: map<string, nat>, profile: Profile, order: (nat, Config)) {
    && profile.providerName in factories && order.0 == factories[profile.providerName]
    && order.1.name == profile.providerName && order.1.model == profile.model
    && order.1.temperature == profile.temperature
  }

  class Registry {
    const me: nat
    const alone: bool
    var log: seq<Entry>
    var factories: map<string, nat>
    var models: map<string, Model>
    ghost var orders: seq<(nat, Config)>

    ghost predicate Valid()
      reads this
    {
      Legal(log) && factories == Factories(log) && models == Models(log)
    }

    constructor (me: nat, alone: bool)
      ensures Valid() && log == [] && this.me == me && this.alone == alone && orders == []
    {
      this.me, this.alone, log, factories, models, orders := me, alone, [], map[], map[], [];
    }

    /** The log grew, by entries of others only. */
    twostate predicate OnlyOthers()
      reads this
    {
      && old(log) <= log
      && (forall k | |old(log)| <= k < |log| :: log[k].caller != me)
      && (alone ==> log == old(log))
    }

    /** Other goroutines take any number of their own critical sections. */
    method Interfere()
      requires Valid()
      modifies `log, `factories, `models
      ensures Valid() && OnlyOthers()
      ensures forall name | name in old(factories) :: name in factories && factories[name] == old(factories)[name]
    {
      if alone { return; }
      var more: seq<Entry> := *;
      if Legal(log + more) && forall k | 0 <= k < |more| :: more[k].caller != me {
        forall name | name in factories
          ensures name in Factories(log + more) && Factories(log + more)[name] == factories[name] {
          assert (log + more)[..|log|] == log;
          FactoriesStay(log + more, |log|, name);
        }
        log := log + more;
        factories, models := Factories(log), Models(log);
      }
    }

    /** A name is trimmed, and neither it nor a factory that is there is ever overwritten. */
    method RegisterFactory(name: string, factory: Option<nat>) returns (ok: bool)
      requires Valid()
      modifies `log, `factories, `models
      ensures Valid() && old(log) <= log
      ensures if ok then factory.Some? && |log| > |old(log)| &&
        log[|log| - 1] == Registered(me, Trim(name), factory.value)
        else OnlyOthers()
      ensures ok ==> forall k | |old(log)| <= k < |log| - 1 :: log[k].caller != me
      ensures alone ==>
        (ok <==> !Blank(name) && factory.Some? && Trim(name) !in old(factories)) && |log| <= |old(log)| + 1
      ensures ok ==>
        Trim(name) in factories && factories[Trim(name)] == factory.value && models == Models(log[..|log| - 1])
    {
      var trimmed := Trim(name);
      if trimmed == "" || factory.None? { return false; }
      Interfere();
      if trimmed in factories { return false; }
      TrimmedNotBlank(name);
      var e := Registered(me, trimmed, factory.value);
      LogAppend(log, e);
      log, factories := log + [e], factories[trimmed := factory.value];
      return true;
    }

    /** What the factory answers: an error, a nil model, or a model. The orders keep what this caller asked for. */
    method Make(factory: nat, config: Config) returns (answer: Option<Model>)
      modifies `orders
      ensures orders == old(orders) + [(factory, config)]
      ensures answer.Some? ==> answer.value.factory == factory && answer.value.config == config
    {
      var made: bool, serial: nat := *, *;
      orders := orders + [(factory, config)];
      return if made then Some(Model(factory, config, serial)) else None;
    }

    /** Looks, makes the model outside the lock, and looks again before binding it. */
    method BindProfile(profile: Profile, definition: Definition)
      returns (ok: bool, ghost asked: bool, ghost answer: Option<Model>)
      requires Valid()
      modifies this
      ensures Valid() && old(log) <= log
      ensures if ok
        then answer.Some? && |log| > |old(log)| && log[|log| - 1] == Bound(me, profile, definition, answer.value) &&
          forall k | |old(log)| <= k < |log| - 1 :: log[k].caller != me
        else OnlyOthers()
      ensures ok ==> profile.name in models && models[profile.name] == answer.value
      ensures asked ==> profile.providerName in factories
      ensures orders == old(orders) + if asked
        then [(factories[profile.providerName],
               Config(profile.providerName, profile.model, definition.apiKey, profile.temperature))]
        else []
      ensures alone ==> (asked <==>
        Acceptable(profile, definition) && profile.name !in old(models) && profile.providerName in old(factories))
      ensures alone ==> (ok <==> asked && answer.Some?)
      ensures alone && ok ==> models == old(models)[profile.name := answer.value]
    {
      asked, answer := false, None;
      if Trim(profile.name) == "" { return false, asked, answer; }
      if profile.providerName != definition.name { return false, asked, answer; }
      if Trim(definition.apiKey) == "" { return false, asked, answer; }
      Interfere();
      var alreadyBound, found := profile.name in models, profile.providerName in factories;
      if alreadyBound || !found { return false, asked, answer; }
      var made := Make(factories[profile.providerName],
        Config(definition.name, profile.model, definition.apiKey, profile.temperature));
      asked, answer := true, made;
      if made.None? { return false, asked, answer; }
      assert BuiltFrom(factories, profile, definition, made.value);
      Interfere();
      if profile.name in models { return false, asked, answer; }
      var e := Bound(me, profile, definition, made.value);
      LogAppend(log, e);
      log, models := log + [e], models[profile.name := made.value];
      return true, asked, answer;
    }

    /** Makes one model for each profile, in order, with the factories seen at the start. */
    method Rebuild(profiles: seq<Profile>, definitions: seq<Definition>, byName: map<string, Definition>,
      seen: map<string, nat>)
      returns (rebuilt: map<string, Model>, ok: bool, ghost refused: bool)
      requires IsIndex(byName, definitions)
      modifies `orders
      ensures old(orders) <= orders && |orders| <= |old(orders)| + |profiles|
      ensures forall i | 0 <= i < |orders| - |old(orders)| :: OrderFor(seen, profiles[i], orders[|old(orders)| + i])
      ensures ok ==> |orders| == |old(orders)| + |profiles|
      ensures ok ==> SnapshotOf(seen, profiles, definitions, rebuilt)
      ensures !refused ==> (ok <==> Providable(profiles, definitions, seen))
      ensures refused ==> !ok
    {
      rebuilt, refused := map[], false;
      for i := 0 to |profiles|
        invariant SnapshotOf(seen, profiles[..i], definitions, rebuilt) && !refused
        invariant Providable(profiles[..i], definitions, seen)
        invariant old(orders) <= orders && |orders| == |old(orders)| + i
        invariant forall k | 0 <= k < i :: OrderFor(seen, profiles[k], orders[|old(orders)| + k])
      {
        var selected := profiles[i];
        IndexHas(byName, definitions, selected.providerName);
        ProvidableGrows(profiles, i, definitions, seen);
        hide IsIndex, SnapshotOf, Providable, Declares;
        if selected.providerName !in byName || selected.providerName !in seen { return rebuilt, false, false; }
        var definition := byName[selected.providerName];
        IndexEntry(byName, definitions, selected.providerName);
        var made := Make(seen[selected.providerName],
          Config(definition.name, selected.model, definition.apiKey, selected.temperature));
        if made.None? { return rebuilt, false, true; }
        SnapshotGrows(seen, profiles, i, definitions, definition, rebuilt, made.value);
        rebuilt := rebuilt[selected.name := made.value];
      }
      assert profiles[..|profiles|] == profiles;
      ok := true;
    }

    /** Rebuilds the whole snapshot and installs it at once, or leaves everything as it is. */
    method BindProfiles(profiles: seq<Profile>, definitions: seq<Definition>)
      returns (ok: bool, ghost rebuilt: map<string, Model>, ghost refused: bool)
      requires Valid()
      modifies this
      ensures Valid() && old(log) <= log
      ensures if ok
        then |log| > |old(log)| && log[|log| - 1] == Replaced(me, profiles, definitions, rebuilt) &&
          models == rebuilt &&
          forall k | |old(log)| <= k < |log| - 1 :: log[k].caller != me
        else OnlyOthers()
      ensures old(orders) <= orders && |orders| <= |old(orders)| + |profiles|
      ensures forall i | 0 <= i < |orders| - |old(orders)| ::
        OrderFor(factories, profiles[i], orders[|old(orders)| + i])
      ensures ok ==> |orders| == |old(orders)| + |profiles|
      ensures ok ==> models.Keys == set k | 0 <= k < |profiles| :: profiles[k].name
      ensures alone ==> (ok <==>
        Declarable(definitions) && Providable(profiles, definitions, old(factories)) && !refused)
    {
      rebuilt, refused := map[], false;
      var byName, declarable := IndexDefinitions(definitions);
      if !declarable { return false, rebuilt, refused; }
      Interfere();
      var seen := factories;
      var made;
      made, ok, refused := Rebuild(profiles, definitions, byName, seen);
      rebuilt := made;
      if !ok { return; }
      Interfere();
      SnapshotKept(seen, factories, profiles, definitions, made);
      var e := Replaced(me, profiles, definitions, made);
      LogAppend(log, e);
      log, models := log + [e], made;
      SnapshotKeys(factories, profiles, definitions, made);
    }

    /** The model bound to a name when the lock was held. */
    method LookUp(name: string) returns (model: Option<Model>)
      requires Valid()
      modifies this
      ensures Valid() && OnlyOthers()
      ensures model == if name in Models(log) then Some(Models(log)[name]) else None
    {
      Interfere();
      return if name in models then Some(models[name]) else None;
    }
  }

  lemma SnapshotGrows(seen: map<string, nat>, profiles: seq<Profile>, i: nat, definitions: seq<Definition>,
    definition: Definition, rebuilt: map<string, Model>, model: Model)
    requires i < |profiles| && SnapshotOf(seen, profiles[..i], definitions, rebuilt)
    requires definition in definitions && BuiltFrom(seen, profiles[i], definition, model)
    ensures SnapshotOf(seen, profiles[..i + 1], definitions, rebuilt[profiles[i].name := model])
  {
    var after, upto := rebuilt[profiles[i].name := model], profiles[..i + 1];
    assert BuiltFromOne(seen, profiles[i], definitions, model);
    forall name | name in after
      ensures exists k | 0 <= k < |upto| ::
        upto[k].name == name && BuiltFromOne(seen, upto[k], definitions, after[name])
    {
      if name == profiles[i].name {
        assert upto[i] == profiles[i];
      } else {
        var k :| 0 <= k < i && profiles[..i][k].name == name &&
          BuiltFromOne(seen, profiles[..i][k], definitions, rebuilt[name]);
        assert upto[k] == profiles[..i][k];
      }
    }
  }

  lemma SnapshotKept(before: map<string, nat>, after: map<string, nat>, profiles: seq<Profile>,
    definitions: seq<Definition>, snapshot: map<string, Model>)
    requires SnapshotOf(before, profiles, definitions, snapshot)
    requires forall f | f in before :: f in after && after[f] == before[f]
    ensures SnapshotOf(after, profiles, definitions, snapshot)
  {
    forall name | name in snapshot
      ensures exists k | 0 <= k < |profiles| ::
        profiles[k].name == name && BuiltFromOne(after, profiles[k], definitions, snapshot[name])
    {
      var k :| 0 <= k < |profiles| && profiles[k].name == name &&
        BuiltFromOne(before, profiles[k], definitions, snapshot[name]);
      var d :| 0 <= d < |definitions| && BuiltFrom(before, profiles[k], definitions[d], snapshot[name]);
      assert BuiltFrom(after, profiles[k], definitions[d], snapshot[name]);
    }
  }

  lemma SnapshotKeys(factories: map<string, nat>, profiles: seq<Profile>, definitions: seq<Definition>,
    snapshot: map<string, Model>)
    requires SnapshotOf(factories, profiles, definitions, snapshot)
    ensures snapshot.Keys == set k | 0 <= k < |profiles| :: profiles[k].name
  {
  }
}
