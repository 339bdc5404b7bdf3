/** The config-driven part of the injector: `registerMappings` reads three
    tables from a config and turns them into calls on the underlying
    dependency injector (alias, share, make, define), loading each config
    file it needs at most once.

    The underlying injector is seen only through the calls made on it, kept
    in order as a log; the config, the file system and the config loader are
    an environment given up front. */
module ConfigInjector {
  import opened Php

  /** A PHP array with string keys, in insertion order. */
  type Table<T> = seq<(string, T)>

  /** One `configFiles` entry: where the file is, and optionally the sub-key
      whose sub-config is wanted. */
  datatype ConfigSetup = ConfigSetup(path: Option<string>, subKey: Option<string>)

  /** Reading one key of the config: not there, its value, or an exception. */
  datatype Read<T> = Absent | Present(value: T) | Fails

  datatype ConfigSource = ConfigSource(
    sharedAliases: Read<Table<string>>,
    standardAliases: Read<Table<string>>,
    configFiles: Read<Table<ConfigSetup>>)

  /** The contents of a config file, cast to an array. */
  type ConfigData = seq<(Key, Value)>

  /** The raw `':config'` argument of a definition: the whole config made
      from a file, or its sub-config under a key. */
  datatype ConfigArg = Whole(data: ConfigData) | Sub(data: ConfigData, subKey: string)

  /** A call on the underlying injector. */
  datatype Call =
    | Alias(original: string, alias: string)
    | Share(name: string)
    | MakeConfig(data: ConfigData)
    | Define(name: string, config: ConfigArg)

  /** What the code asks of the outside world: which paths are readable,
      what loading each file gives (no entry: the loader throws), which calls
      the underlying injector refuses, and which sub-keys a config lacks. */
  datatype Environment = Environment(
    readable: set<string>,
    files: map<string, Value>,
    rejected: set<Call>,
    missingSubKeys: set<(ConfigData, string)>)

  /** Why setting up the injector failed. */
  datatype SetupError =
    | MissingPath(name: string)
    | NotReadable(path: string)
    | LoadFailed(path: string)
    | Rejected(call: Call)
    | NoSubConfig(subKey: string)

  /** How `registerMappings` ends: normally, or with an InvalidMappingsException
      for unreadable keys or for a failed setup. */
  datatype Outcome = Registered | KeysUnreadable | SetupFailed(cause: SetupError)

  /** The injector as far as this code sees it: the calls made on it, the
      config-file cache, and every path handed to the loader, in order. */
  datatype InjectorState = InjectorState(calls: seq<Call>, filesCache: map<string, Value>, loads: seq<string>)

  // ---------------------------------------------------------------------
  // The operations, one step at a time.

  /** `(array)$v`. Objects are cast to no entries: their properties are not modelled. */
  function ArrayCast(v: Value): ConfigData
  {
    match v
    case Array(es) => es
    case Null => []
    case Obj(_) => []
    case _ => [(IntKey(0), v)]
  }

  /** A call on the underlying injector: refused, or logged. */
  function IssueEffect(env: Environment, st: InjectorState, c: Call): (Option<SetupError>, InjectorState)
  {
    if c in env.rejected then (Some(Rejected(c)), st) else (None, st.(calls := st.calls + [c]))
  }

  /** `fetchConfigData($path)`. */
  function FetchEffect(env: Environment, st: InjectorState, path: string): (Result<ConfigData, SetupError>, InjectorState)
  {
    if path !in env.readable then (Err(NotReadable(path)), st)
    else if path in st.filesCache then (Ok(ArrayCast(st.filesCache[path])), st)
    else if path !in env.files then (Err(LoadFailed(path)), st.(loads := st.loads + [path]))
    else
      (Ok(ArrayCast(env.files[path])),
       st.(filesCache := st.filesCache[path := env.files[path]], loads := st.loads + [path]))
  }

  function ConfigArgOf(data: ConfigData, subKey: Option<string>): ConfigArg
  {
    match subKey
    case Some(k) => Sub(data, k)
    case None => Whole(data)
  }

  /** `defineConfigFiles($configSetup, $name)`. */
  function DefineEffect(env: Environment, st: InjectorState, name: string, setup: ConfigSetup): (Option<SetupError>, InjectorState)
  {
    if setup.path.None? then (Some(MissingPath(name)), st)
    else
      var (data, st1) := FetchEffect(env, st, setup.path.value);
      if data.Err? then (Some(data.error), st1)
      else
        var (made, st2) := IssueEffect(env, st1, MakeConfig(data.value));
        if made.Some? then (made, st2)
        else if setup.subKey.Some? && (data.value, setup.subKey.value) in env.missingSubKeys
        then (Some(NoSubConfig(setup.subKey.value)), st2)
        else IssueEffect(env, st2, Define(name, ConfigArgOf(data.value, setup.subKey)))
  }

  /** One element visited by one of the three `array_walk` loops. */
  datatype Item =
    | AliasItem(key: string, value: string)
    | ShareItem(key: string, value: string)
    | ConfigItem(name: string, setup: ConfigSetup)

  /** The callback for one element: `mapAliases` skips an entry that names
      itself, `shareAliases` shares the key, `defineConfigFiles` defines it. */
  function StepEffect(env: Environment, st: InjectorState, item: Item): (Option<SetupError>, InjectorState)
  {
    match item
    case AliasItem(k, v) => if v == k then (None, st) else IssueEffect(env, st, Alias(k, v))
    case ShareItem(k, _) => IssueEffect(env, st, Share(k))
    case ConfigItem(name, setup) => DefineEffect(env, st, name, setup)
  }

  /** The elements in order, stopping at the first that fails. */
  function RunEffect(env: Environment, st: InjectorState, items: seq<Item>): (Option<SetupError>, InjectorState)
    decreases |items|
  {
    if items == [] then (None, st)
    else
      var r := RunEffect(env, st, items[..|items| - 1]);
      if r.0.Some? then r else StepEffect(env, r.1, items[|items| - 1])
  }

  function AliasItems(t: Table<string>): (r: seq<Item>)
    ensures |r| == |t|
  {
    seq(|t|, i requires 0 <= i < |t| => AliasItem(t[i].0, t[i].1))
  }

  function ShareItems(t: Table<string>): (r: seq<Item>)
    ensures |r| == |t|
  {
    seq(|t|, i requires 0 <= i < |t| => ShareItem(t[i].0, t[i].1))
  }

  function ConfigItems(t: Table<ConfigSetup>): (r: seq<Item>)
    ensures |r| == |t|
  {
    seq(|t|, i requires 0 <= i < |t| => ConfigItem(t[i].0, t[i].1))
  }

  /** The three walks of `registerMappings` in order: the merged aliases,
      the shared aliases, the config files. */
  function Plan(shared: Table<string>, standard: Table<string>, files: Table<ConfigSetup>): seq<Item>
  {
    AliasItems(Merge(shared, standard)) + ShareItems(shared) + ConfigItems(files)
  }

  /** A config key that is not there reads as an empty array. */
  function ReadTable<T>(r: Read<Table<T>>): Option<Table<T>>
  {
    match r
    case Absent => Some([])
    case Present(t) => Some(t)
    case Fails => None
  }

  /** `registerMappings($config)`. */
  function RegistrationEffect(env: Environment, src: ConfigSource, st: InjectorState): (Outcome, InjectorState)
  {
    var shared := ReadTable(src.sharedAliases);
    var standard := ReadTable(src.standardAliases);
    var files := ReadTable(src.configFiles);
    if shared.None? || standard.None? || files.None? then (KeysUnreadable, st)
    else
      var (e, st') := RunEffect(env, st, Plan(shared.value, standard.value, files.value));
      (if e.None? then Registered else SetupFailed(e.value), st')
  }

  // ---------------------------------------------------------------------
  // The walk: prefixes, concatenation, stopping.

  lemma RunExtend(env: Environment, st: InjectorState, items: seq<Item>, n: nat)
    requires n < |items|
    ensures RunEffect(env, st, items[..n + 1]) ==
      var r := RunEffect(env, st, items[..n]);
      if r.0.Some? then r else StepEffect(env, r.1, items[n])
  {
    assert items[..n + 1][..n] == items[..n];
  }

  /** The walk of `items[..n + 1]`, when `items[..n]` has succeeded, ends as element `n` does. */
  lemma RunStep(env: Environment, st: InjectorState, items: seq<Item>, n: nat,
                before: InjectorState, after: (Option<SetupError>, InjectorState))
    requires n < |items|
    requires RunEffect(env, st, items[..n]) == (None, before)
    requires after == StepEffect(env, before, items[n])
    ensures RunEffect(env, st, items[..n + 1]) == after
  {
    RunExtend(env, st, items, n);
  }

  /** Once a prefix has failed, the whole walk ends as that prefix did. */
  lemma {:induction false} RunStops(env: Environment, st: InjectorState, items: seq<Item>, n: nat)
    requires n <= |items|
    requires RunEffect(env, st, items[..n]).0.Some?
    ensures RunEffect(env, st, items) == RunEffect(env, st, items[..n])
    decreases |items| - n
  {
    if n < |items| {
      var p := items[..|items| - 1];
      assert p[..n] == items[..n];
      RunStops(env, st, p, n);
    } else {
      assert items[..n] == items;
    }
  }

  /** Walking `a + b` walks `a`, then, if nothing failed, `b` from where `a` left off. */
  lemma {:induction false} RunConcat(env: Environment, st: InjectorState, a: seq<Item>, b: seq<Item>)
    ensures RunEffect(env, st, a + b) ==
      var r := RunEffect(env, st, a);
      if r.0.Some? then r else RunEffect(env, r.1, b)
    decreases |b|
  {
    if b == [] {
      assert a + b == a;
    } else {
      assert (a + b)[..|a + b| - 1] == a + b[..|b| - 1];
      RunConcat(env, st, a, b[..|b| - 1]);
    }
  }

  /** A config entry without a path makes every walk through it fail. */
  lemma MissingPathBlocks(env: Environment, st: InjectorState, items: seq<Item>, i: nat)
    requires i < |items| && items[i].ConfigItem? && items[i].setup.path.None?
    ensures RunEffect(env, st, items).0.Some?
  {
    RunExtend(env, st, items, i);
    RunStops(env, st, items, i + 1);
  }

  // ---------------------------------------------------------------------
  // The calls issued.

  /** The calls an alias or share element issues. */
  function ItemCalls(item: Item): seq<Call>
  {
    match item
    case AliasItem(k, v) => if v == k then [] else [Alias(k, v)]
    case ShareItem(k, _) => [Share(k)]
    case ConfigItem(_, _) => []
  }

  function PlanCalls(items: seq<Item>): seq<Call>
    decreases |items|
  {
    if items == [] then [] else PlanCalls(items[..|items| - 1]) + ItemCalls(items[|items| - 1])
  }

  /** A walk over alias and share elements succeeds exactly when the
      underlying injector accepts each of their calls, and then it has
      logged exactly those calls, in order. */
  lemma {:induction false} RunSimpleItems(env: Environment, st: InjectorState, items: seq<Item>)
    requires forall i :: 0 <= i < |items| ==> !items[i].ConfigItem?
    ensures RunEffect(env, st, items).0.None? <==> forall c :: c in PlanCalls(items) ==> c !in env.rejected
    ensures RunEffect(env, st, items).0.None? ==>
      RunEffect(env, st, items).1 == st.(calls := st.calls + PlanCalls(items))
    decreases |items|
  {
    if items != [] {
      var p := items[..|items| - 1];
      RunSimpleItems(env, st, p);
      var r := RunEffect(env, st, p);
      if r.0.None? {
        assert st.calls + PlanCalls(p) + ItemCalls(items[|items| - 1]) == st.calls + PlanCalls(items);
      } else {
        var c :| c in PlanCalls(p) && c in env.rejected;
        assert c in PlanCalls(items);
      }
    }
  }

  lemma {:induction false} AliasCallsAre(t: Table<string>, c: Call)
    ensures c in PlanCalls(AliasItems(t)) <==>
      c.Alias? && c.alias != c.original && exists i :: 0 <= i < |t| && t[i] == (c.original, c.alias)
    decreases |t|
  {
    if t != [] {
      var p := t[..|t| - 1];
      assert AliasItems(t)[..|t| - 1] == AliasItems(p);
      AliasCallsAre(p, c);
      if c.Alias? && exists i :: 0 <= i < |t| && t[i] == (c.original, c.alias) {
        var i :| 0 <= i < |t| && t[i] == (c.original, c.alias);
        if i < |t| - 1 {
          assert p[i] == t[i];
        }
      }
    }
  }

  lemma {:induction false} ShareCallsAre(t: Table<string>, c: Call)
    ensures c in PlanCalls(ShareItems(t)) <==> c.Share? && exists i :: 0 <= i < |t| && t[i].0 == c.name
    decreases |t|
  {
    if t != [] {
      var p := t[..|t| - 1];
      assert ShareItems(t)[..|t| - 1] == ShareItems(p);
      ShareCallsAre(p, c);
      if c.Share? && exists i :: 0 <= i < |t| && t[i].0 == c.name {
        var i :| 0 <= i < |t| && t[i].0 == c.name;
        if i < |t| - 1 {
          assert p[i] == t[i];
        }
      }
    }
  }

  /** In an array, an entry `k => x` is there exactly when `$t[k]` is `x`. */
  lemma EntryIffGet<V>(t: seq<(string, V)>, k: string, x: V)
    requires DistinctKeys(t)
    ensures (exists i :: 0 <= i < |t| && t[i] == (k, x)) <==> Get(t, k) == Some(x)
  {
    if Get(t, k) == Some(x) {
      GetSomeIsEntry(t, k);
    }
    if exists i :: 0 <= i < |t| && t[i] == (k, x) {
      var i :| 0 <= i < |t| && t[i] == (k, x);
      GetPresent(t, i);
    }
  }

  lemma KeyIffGet<V>(t: seq<(string, V)>, k: string)
    ensures (exists i :: 0 <= i < |t| && t[i].0 == k) <==> Get(t, k).Some?
  {
    if Get(t, k).Some? {
      GetSomeIsEntry(t, k);
    }
  }

  // ---------------------------------------------------------------------
  // Call order.

  /** Alias calls first, then share calls, then config definitions. */
  function Rank(c: Call): nat
  {
    match c
    case Alias(_, _) => 0
    case Share(_) => 1
    case MakeConfig(_) => 2
    case Define(_, _) => 2
  }

  function ItemRank(item: Item): nat
  {
    match item
    case AliasItem(_, _) => 0
    case ShareItem(_, _) => 1
    case ConfigItem(_, _) => 2
  }

  predicate RankSorted(calls: seq<Call>)
  {
    forall i, j :: 0 <= i < j < |calls| ==> Rank(calls[i]) <= Rank(calls[j])
  }

  predicate ItemsRankSorted(items: seq<Item>)
  {
    forall i, j :: 0 <= i < j < |items| ==> ItemRank(items[i]) <= ItemRank(items[j])
  }

  /** One element only appends calls, all of its own rank. */
  lemma StepAppends(env: Environment, st: InjectorState, item: Item)
    ensures var calls := StepEffect(env, st, item).1.calls;
      |calls| >= |st.calls| && calls[..|st.calls|] == st.calls &&
      forall c :: c in calls[|st.calls|..] ==> Rank(c) == ItemRank(item)
  {
  }

  /** A walk never takes back a call: the log only grows. */
  lemma {:induction false} RunExtendsLog(env: Environment, st: InjectorState, items: seq<Item>)
    ensures var calls := RunEffect(env, st, items).1.calls;
      |calls| >= |st.calls| && calls[..|st.calls|] == st.calls
    decreases |items|
  {
    if items != [] {
      var p := items[..|items| - 1];
      RunExtendsLog(env, st, p);
      var r := RunEffect(env, st, p);
      if r.0.None? {
        StepAppends(env, r.1, items[|items| - 1]);
      }
    }
  }

  lemma SortedAppend(a: seq<Call>, d: seq<Call>, k: nat)
    requires RankSorted(a)
    requires forall c :: c in a ==> Rank(c) <= k
    requires forall c :: c in d ==> Rank(c) == k
    ensures RankSorted(a + d)
  {
    forall i, j | 0 <= i < j < |a + d|
      ensures Rank((a + d)[i]) <= Rank((a + d)[j])
    {
      if j >= |a| {
        assert (a + d)[j] == d[j - |a|];
        if i < |a| {
          assert (a + d)[i] == a[i];
        } else {
          assert (a + d)[i] == d[i - |a|];
        }
      }
    }
  }

  /** Over elements of non-decreasing rank the calls a walk appends come
      out in rank order, between the ranks of its first and last element. */
  lemma {:induction false} RunRanked(env: Environment, st: InjectorState, items: seq<Item>)
    requires ItemsRankSorted(items)
    ensures var calls := RunEffect(env, st, items).1.calls;
      |calls| >= |st.calls| && RankSorted(calls[|st.calls|..]) &&
      forall c :: c in calls[|st.calls|..] ==> items != [] && ItemRank(items[0]) <= Rank(c) <= ItemRank(items[|items| - 1])
    decreases |items|
  {
    RunExtendsLog(env, st, items);
    if items != [] {
      var p := items[..|items| - 1];
      var item := items[|items| - 1];
      assert ItemsRankSorted(p);
      RunRanked(env, st, p);
      RunExtendsLog(env, st, p);
      var r := RunEffect(env, st, p);
      var n := |st.calls|;
      if p != [] {
        assert ItemRank(p[0]) <= ItemRank(p[|p| - 1]) <= ItemRank(item);
      }
      if r.0.None? {
        StepAppends(env, r.1, item);
        var full := StepEffect(env, r.1, item).1.calls;
        var a := r.1.calls[n..];
        var d := full[|r.1.calls|..];
        assert full[n..] == a + d;
        SortedAppend(a, d, ItemRank(item));
      }
    }
  }

  /** The plan of a registration ranks its elements: aliases, then shares, then config files. */
  lemma PlanRankSorted(shared: Table<string>, standard: Table<string>, files: Table<ConfigSetup>)
    ensures ItemsRankSorted(Plan(shared, standard, files))
  {
    var items := Plan(shared, standard, files);
    var na := |Merge(shared, standard)|;
    var ns := |shared|;
    forall i | 0 <= i < |items|
      ensures ItemRank(items[i]) == if i < na then 0 else if i < na + ns then 1 else 2
    {
    }
  }

  /** The calls of one registration come in rank order: every alias before
      every share, every share before every config definition. */
  lemma RegistrationCallOrder(env: Environment, src: ConfigSource, st: InjectorState)
    ensures var calls := RegistrationEffect(env, src, st).1.calls;
      |calls| >= |st.calls| && calls[..|st.calls|] == st.calls && RankSorted(calls[|st.calls|..])
  {
    var shared := ReadTable(src.sharedAliases);
    var standard := ReadTable(src.standardAliases);
    var files := ReadTable(src.configFiles);
    if shared.Some? && standard.Some? && files.Some? {
      PlanRankSorted(shared.value, standard.value, files.value);
      RunRanked(env, st, Plan(shared.value, standard.value, files.value));
      RunExtendsLog(env, st, Plan(shared.value, standard.value, files.value));
    } else {
      assert RegistrationEffect(env, src, st).1.calls[|st.calls|..] == [];
    }
  }

  // ---------------------------------------------------------------------
  // What a registration calls.

  /** A successful walk of the plan logs the alias calls, then the share
      calls, then calls of rank 2 only. */
  lemma PlanRunCalls(env: Environment, st: InjectorState,
                     shared: Table<string>, standard: Table<string>, files: Table<ConfigSetup>)
    requires RunEffect(env, st, Plan(shared, standard, files)).0.None?
    ensures var calls := RunEffect(env, st, Plan(shared, standard, files)).1.calls;
      var head := st.calls + PlanCalls(AliasItems(Merge(shared, standard))) + PlanCalls(ShareItems(shared));
      |calls| >= |head| && calls[..|head|] == head && forall c :: c in calls[|head|..] ==> Rank(c) == 2
  {
    var a, s, f := AliasItems(Merge(shared, standard)), ShareItems(shared), ConfigItems(files);
    assert Plan(shared, standard, files) == (a + s) + f;
    RunConcat(env, st, a + s, f);
    RunConcat(env, st, a, s);
    RunSimpleItems(env, st, a);
    RunSimpleItems(env, RunEffect(env, st, a).1, s);
    var mid := RunEffect(env, st, a + s).1;
    assert ItemsRankSorted(f);
    RunRanked(env, mid, f);
    RunExtendsLog(env, mid, f);
  }

  /** The new calls of a successful registration: the alias calls, the
      share calls, then calls of rank 2. */
  lemma RegistrationSplit(env: Environment, st: InjectorState,
                          shared: Table<string>, standard: Table<string>, files: Table<ConfigSetup>, c: Call)
    requires RunEffect(env, st, Plan(shared, standard, files)).0.None?
    ensures var calls := RunEffect(env, st, Plan(shared, standard, files)).1.calls;
      |calls| >= |st.calls| && calls[..|st.calls|] == st.calls &&
      (c.Alias? || c.Share? ==>
        (c in calls[|st.calls|..] <==> c in PlanCalls(AliasItems(Merge(shared, standard))) || c in PlanCalls(ShareItems(shared))))
  {
    var aliasCalls, shareCalls := PlanCalls(AliasItems(Merge(shared, standard))), PlanCalls(ShareItems(shared));
    PlanRunCalls(env, st, shared, standard, files);
    var calls := RunEffect(env, st, Plan(shared, standard, files)).1.calls;
    var head := st.calls + aliasCalls + shareCalls;
    var rest := calls[|head|..];
    assert calls == head + rest;
    assert calls[|st.calls|..] == aliasCalls + shareCalls + rest;
  }

  /** The alias calls of a registration: a name is aliased to the standard
      target when it has one, otherwise to its shared target, and never to
      itself. */
  lemma RegistrationAliases(env: Environment, st: InjectorState,
                            shared: Table<string>, standard: Table<string>, files: Table<ConfigSetup>, c: Call)
    requires DistinctKeys(shared) && DistinctKeys(standard)
    requires RunEffect(env, st, Plan(shared, standard, files)).0.None?
    requires c.Alias?
    ensures var calls := RunEffect(env, st, Plan(shared, standard, files)).1.calls;
      |calls| >= |st.calls| &&
      (c in calls[|st.calls|..] <==>
        c.alias != c.original &&
        (if Get(standard, c.original).Some? then Get(standard, c.original) == Some(c.alias)
         else Get(shared, c.original) == Some(c.alias)))
  {
    var merged := Merge(shared, standard);
    RegistrationSplit(env, st, shared, standard, files, c);
    AliasCallsAre(merged, c);
    ShareCallsAre(shared, c);
    MergeDistinct(shared, standard);
    EntryIffGet(merged, c.original, c.alias);
    MergePrecedence(shared, standard, c.original);
  }

  /** Each shared name is shared under its key, not its target, and nothing else is shared. */
  lemma RegistrationShares(env: Environment, st: InjectorState,
                           shared: Table<string>, standard: Table<string>, files: Table<ConfigSetup>, name: string)
    requires RunEffect(env, st, Plan(shared, standard, files)).0.None?
    ensures var calls := RunEffect(env, st, Plan(shared, standard, files)).1.calls;
      |calls| >= |st.calls| && (Share(name) in calls[|st.calls|..] <==> Get(shared, name).Some?)
  {
    RegistrationSplit(env, st, shared, standard, files, Share(name));
    AliasCallsAre(Merge(shared, standard), Share(name));
    ShareCallsAre(shared, Share(name));
    KeyIffGet(shared, name);
  }

  // ---------------------------------------------------------------------
  // Single steps and the whole registration.

  /** An alias entry naming itself issues nothing. */
  lemma SelfAliasSkipped(env: Environment, st: InjectorState, name: string)
    ensures StepEffect(env, st, AliasItem(name, name)) == (None, st)
  {
  }

  /** A key that is not in the config reads like an empty array. */
  lemma AbsentKeyIsEmpty(env: Environment, src: ConfigSource, st: InjectorState)
    ensures RegistrationEffect(env, src.(sharedAliases := Absent), st) == RegistrationEffect(env, src.(sharedAliases := Present([])), st)
    ensures RegistrationEffect(env, src.(standardAliases := Absent), st) == RegistrationEffect(env, src.(standardAliases := Present([])), st)
    ensures RegistrationEffect(env, src.(configFiles := Absent), st) == RegistrationEffect(env, src.(configFiles := Present([])), st)
  {
  }

  /** With all three keys absent nothing is registered and nothing changes. */
  lemma EmptyConfigRegistersNothing(env: Environment, st: InjectorState)
    ensures RegistrationEffect(env, ConfigSource(Absent, Absent, Absent), st) == (Registered, st)
  {
    assert Plan([], [], []) == [];
  }

  /** A key that cannot be read fails the registration before any call. */
  lemma UnreadableKeyFails(env: Environment, src: ConfigSource, st: InjectorState)
    requires src.sharedAliases.Fails? || src.standardAliases.Fails? || src.configFiles.Fails?
    ensures RegistrationEffect(env, src, st) == (KeysUnreadable, st)
  {
  }

  /** A config-file entry without a path makes the registration fail. */
  lemma MissingPathFailsRegistration(env: Environment, src: ConfigSource, st: InjectorState, i: nat)
    requires src.configFiles.Present? && i < |src.configFiles.value|
    requires src.configFiles.value[i].1.path.None?
    ensures RegistrationEffect(env, src, st).0.SetupFailed? || RegistrationEffect(env, src, st).0.KeysUnreadable?
  {
    var shared := ReadTable(src.sharedAliases);
    var standard := ReadTable(src.standardAliases);
    if shared.Some? && standard.Some? {
      var items := Plan(shared.value, standard.value, src.configFiles.value);
      var k := |Merge(shared.value, standard.value)| + |shared.value| + i;
      assert items[k] == ConfigItem(src.configFiles.value[i].0, src.configFiles.value[i].1);
      MissingPathBlocks(env, st, items, k);
    }
  }

  // ---------------------------------------------------------------------
  // The config-file memo.

  /** The cache holds what the loader gave for each cached path, each
      cached path was loaded exactly once, and a path whose file loads is
      always cached. */
  predicate MemoInv(env: Environment, st: InjectorState)
  {
    (forall p :: p in st.filesCache ==>
      p in env.files && st.filesCache[p] == env.files[p] && multiset(st.loads)[p] == 1) &&
    (forall p :: p in st.loads && p in env.files ==> p in st.filesCache)
  }

  lemma FetchKeepsMemo(env: Environment, st: InjectorState, path: string)
    requires MemoInv(env, st)
    ensures MemoInv(env, FetchEffect(env, st, path).1)
  {
    if path in env.readable && path !in st.filesCache && path in env.files {
      assert path !in st.loads;
      var st' := FetchEffect(env, st, path).1;
      forall p | p in st'.filesCache
        ensures multiset(st'.loads)[p] == 1
      {
        assert multiset(st'.loads) == multiset(st.loads) + multiset{path};
      }
    }
  }

  /** Apart from fetching, defining a config file touches only the call log. */
  lemma DefineTouchesOnlyCalls(env: Environment, st: InjectorState, name: string, setup: ConfigSetup)
    requires setup.path.Some?
    ensures var r := DefineEffect(env, st, name, setup).1;
      var f := FetchEffect(env, st, setup.path.value).1;
      r.filesCache == f.filesCache && r.loads == f.loads
  {
  }

  lemma StepKeepsMemo(env: Environment, st: InjectorState, item: Item)
    requires MemoInv(env, st)
    ensures MemoInv(env, StepEffect(env, st, item).1)
  {
    if item.ConfigItem? && item.setup.path.Some? {
      FetchKeepsMemo(env, st, item.setup.path.value);
      DefineTouchesOnlyCalls(env, st, item.name, item.setup);
      assert StepEffect(env, st, item) == DefineEffect(env, st, item.name, item.setup);
    }
  }

  lemma {:induction false} RunKeepsMemo(env: Environment, st: InjectorState, items: seq<Item>)
    requires MemoInv(env, st)
    ensures MemoInv(env, RunEffect(env, st, items).1)
    decreases |items|
  {
    if items != [] {
      var p := items[..|items| - 1];
      RunKeepsMemo(env, st, p);
      var r := RunEffect(env, st, p);
      if r.0.None? {
        StepKeepsMemo(env, r.1, items[|items| - 1]);
      }
    }
  }

  /** A readable path already cached is answered from the cache, with no load. */
  lemma FetchCached(env: Environment, st: InjectorState, path: string)
    requires MemoInv(env, st) && path in env.readable && path in st.filesCache
    ensures FetchEffect(env, st, path) == (Ok(ArrayCast(env.files[path])), st)
  {
  }

  /** Fetching a path twice loads it at most once, and answers the same both times. */
  lemma FetchTwice(env: Environment, st: InjectorState, path: string)
    requires MemoInv(env, st)
    requires FetchEffect(env, st, path).0.Ok?
    ensures var (r1, st1) := FetchEffect(env, st, path);
      FetchEffect(env, st1, path) == (r1, st1) &&
      r1 == Ok(ArrayCast(env.files[path])) &&
      multiset(st1.loads)[path] == 1
  {
    FetchKeepsMemo(env, st, path);
  }

  /** A walk loads each path at most once in all: the memo survives every registration. */
  lemma RegistrationKeepsMemo(env: Environment, src: ConfigSource, st: InjectorState)
    requires MemoInv(env, st)
    ensures MemoInv(env, RegistrationEffect(env, src, st).1)
  {
    var shared := ReadTable(src.sharedAliases);
    var standard := ReadTable(src.standardAliases);
    var files := ReadTable(src.configFiles);
    if shared.Some? && standard.Some? && files.Some? {
      RunKeepsMemo(env, st, Plan(shared.value, standard.value, files.value));
    }
  }

  /** A config-file entry that succeeds makes the config from the file's
      contents and defines its name with `':config'` set to the sub-config
      when the entry has a sub-key and to the whole config otherwise. */
  lemma DefineConfigArgument(env: Environment, st: InjectorState, name: string, setup: ConfigSetup)
    requires MemoInv(env, st)
    requires StepEffect(env, st, ConfigItem(name, setup)).0.None?
    ensures setup.path.Some? && setup.path.value in env.readable && setup.path.value in env.files
    ensures var data := ArrayCast(env.files[setup.path.value]);
      StepEffect(env, st, ConfigItem(name, setup)).1.calls ==
        st.calls + [MakeConfig(data), Define(name, if setup.subKey.Some? then Sub(data, setup.subKey.value) else Whole(data))]
  {
  }

  // ---------------------------------------------------------------------

  class Injector {
    const env: Environment
    var calls: seq<Call>
    var configFilesCache: map<string, Value>
    var loads: seq<string>

    function State(): InjectorState
      reads this
    {
      InjectorState(calls, configFilesCache, loads)
    }

    predicate Valid()
      reads this
    {
      MemoInv(env, State())
    }

    /** A new injector: no calls made and no config file loaded yet. */
    constructor (env: Environment)
      ensures this.env == env && State() == InjectorState([], map[], [])
      ensures Valid()
    {
      this.env := env;
      calls := [];
      configFilesCache := map[];
      loads := [];
    }

    /** A call on the underlying injector (alias, share, make or define). */
    method Issue(c: Call) returns (err: Option<SetupError>)
      modifies this
      ensures (err, State()) == IssueEffect(env, old(State()), c)
    {
      if c in env.rejected {
        err := Some(Rejected(c));
      } else {
        err := None;
        calls := calls + [c];
      }
    }

    /** The contents of a readable config file, loaded on first use and cached. */
    method FetchConfigData(path: string) returns (r: Result<ConfigData, SetupError>)
      modifies this
      ensures (r, State()) == FetchEffect(env, old(State()), path)
    {
      if path !in env.readable {
        return Err(NotReadable(path));
      }
      if path !in configFilesCache {
        loads := loads + [path];
        if path !in env.files {
          return Err(LoadFailed(path));
        }
        var config := env.files[path];
        configFilesCache := configFilesCache[path := config];
      }
      r := Ok(ArrayCast(configFilesCache[path]));
    }

    /** Aliases `name` to `target` unless they are the same. */
    method MapAliases(target: string, name: string) returns (err: Option<SetupError>)
      modifies this
      ensures (err, State()) == StepEffect(env, old(State()), AliasItem(name, target))
    {
      if target == name {
        return None;
      }
      err := Issue(Alias(name, target));
    }

    /** Shares `name`; the target is ignored. */
    method ShareAliases(target: string, name: string) returns (err: Option<SetupError>)
      modifies this
      ensures (err, State()) == StepEffect(env, old(State()), ShareItem(name, target))
    {
      err := Issue(Share(name));
    }

    /** Makes a config from the entry's file and defines `name` with it. */
    method DefineConfigFiles(setup: ConfigSetup, name: string) returns (err: Option<SetupError>)
      modifies this
      ensures (err, State()) == StepEffect(env, old(State()), ConfigItem(name, setup))
    {
      if setup.path.None? {
        return Some(MissingPath(name));
      }
      var configData := FetchConfigData(setup.path.value);
      if configData.Err? {
        return Some(configData.error);
      }
      err := Issue(MakeConfig(configData.value));
      if err.Some? {
        return;
      }
      var arg: ConfigArg;
      if setup.subKey.Some? {
        if (configData.value, setup.subKey.value) in env.missingSubKeys {
          return Some(NoSubConfig(setup.subKey.value));
        }
        arg := Sub(configData.value, setup.subKey.value);
      } else {
        arg := Whole(configData.value);
      }
      err := Issue(Define(name, arg));
    }

    /** `array_walk($aliases, [$this, 'mapAliases'])`. */
    method WalkAliases(aliases: Table<string>) returns (err: Option<SetupError>)
      modifies this
      ensures (err, State()) == RunEffect(env, old(State()), AliasItems(aliases))
    {
      ghost var st0 := State();
      ghost var items := AliasItems(aliases);
      var i := 0;
      while i < |aliases|
        invariant 0 <= i <= |aliases|
        invariant RunEffect(env, st0, items[..i]) == (None, State())
      {
        ghost var before := State();
        err := MapAliases(aliases[i].1, aliases[i].0);
        RunStep(env, st0, items, i, before, (err, State()));
        if err.Some? {
          RunStops(env, st0, items, i + 1);
          return;
        }
        i := i + 1;
      }
      assert items[..i] == items;
      err := None;
    }

    /** `array_walk($sharedAliases, [$this, 'shareAliases'])`. */
    method WalkShares(sharedAliases: Table<string>) returns (err: Option<SetupError>)
      modifies this
      ensures (err, State()) == RunEffect(env, old(State()), ShareItems(sharedAliases))
    {
      ghost var st0 := State();
      ghost var items := ShareItems(sharedAliases);
      var i := 0;
      while i < |sharedAliases|
        invariant 0 <= i <= |sharedAliases|
        invariant RunEffect(env, st0, items[..i]) == (None, State())
      {
        ghost var before := State();
        err := ShareAliases(sharedAliases[i].1, sharedAliases[i].0);
        RunStep(env, st0, items, i, before, (err, State()));
        if err.Some? {
          RunStops(env, st0, items, i + 1);
          return;
        }
        i := i + 1;
      }
      assert items[..i] == items;
      err := None;
    }

    /** `array_walk($configFiles, [$this, 'defineConfigFiles'])`. */
    method WalkConfigFiles(configFiles: Table<ConfigSetup>) returns (err: Option<SetupError>)
      modifies this
      ensures (err, State()) == RunEffect(env, old(State()), ConfigItems(configFiles))
    {
      ghost var st0 := State();
      ghost var items := ConfigItems(configFiles);
      var i := 0;
      while i < |configFiles|
        invariant 0 <= i <= |configFiles|
        invariant RunEffect(env, st0, items[..i]) == (None, State())
      {
        ghost var before := State();
        err := DefineConfigFiles(configFiles[i].1, configFiles[i].0);
        RunStep(env, st0, items, i, before, (err, State()));
        if err.Some? {
          RunStops(env, st0, items, i + 1);
          return;
        }
        i := i + 1;
      }
      assert items[..i] == items;
      err := None;
    }

    /** Reads the three tables, then walks the merged aliases, the shared
        aliases and the config files, stopping at the first failure; any
        failure ends as an InvalidMappingsException. */
    method RegisterMappings(src: ConfigSource) returns (outcome: Outcome)
      requires Valid()
      modifies this
      ensures (outcome, State()) == RegistrationEffect(env, src, old(State()))
      ensures Valid()
    {
      ghost var st0 := State();
      RegistrationKeepsMemo(env, src, st0);
      var sharedRead := ReadTable(src.sharedAliases);
      var standardRead := ReadTable(src.standardAliases);
      var filesRead := ReadTable(src.configFiles);
      if sharedRead.None? || standardRead.None? || filesRead.None? {
        return KeysUnreadable;
      }
      var sharedAliases, standardAliases, configFiles := sharedRead.value, standardRead.value, filesRead.value;
      var aliases := Merge(sharedAliases, standardAliases);
      ghost var a, s, f := AliasItems(aliases), ShareItems(sharedAliases), ConfigItems(configFiles);
      assert Plan(sharedAliases, standardAliases, configFiles) == a + (s + f);
      RunConcat(env, st0, a, s + f);

      var err := WalkAliases(aliases);
      if err.Some? {
        return SetupFailed(err.value);
      }
      RunConcat(env, State(), s, f);
      err := WalkShares(sharedAliases);
      if err.Some? {
        return SetupFailed(err.value);
      }
      err := WalkConfigFiles(configFiles);
      if err.Some? {
        return SetupFailed(err.value);
      }
      outcome := Registered;
    }
  }
}
