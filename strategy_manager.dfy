/** The strategy manager: a registry of strategies loaded from a static table,
    signal generation over every enabled and registered strategy with each
    strategy's failure kept to itself, ordering by confidence, and the
    majority vote that combines signals. */
module StrategyManagement {
  import opened Wrappers
  import opened Signals
  import opened Frames
  import opened Settings
  import Text
  import BaseStrategy
  import IchimokuStrategy

  // ---------------------------------------------------------------------------
  // Strategies and loading
  // ---------------------------------------------------------------------------

  /** A strategy instance, by what its `generate_signals` does: the base
      class's (no signals), the Ichimoku strategy's, or that of a strategy
      module not part of this model, which may produce anything or raise. */
  datatype Strategy =
    | Base
    | Ichimoku(cfg: Config)
    | Other(run: (Table, int) -> Result<seq<Signal>, Fault>)

  /** `strategy.generate_signals(data)` at time `now`. */
  function Run(s: Strategy, data: Table, now: int): Result<seq<Signal>, Fault> {
    match s
    case Base => Success(BaseStrategy.GenerateSignals(data))
    case Ichimoku(cfg) => IchimokuStrategy.FrameSignals(cfg, data, now)
    case Other(run) => run(data, now)
  }

  /** The names in the static table of strategies. */
  function StrategyNames(): set<string> {
    {"ichimoku", "pivot_point", "vwap", "gap", "pullback", "news",
     "range", "reversal", "breakout", "momentum", "scalping"}
  }

  /** The static table: each name's module is "strategies." followed by the
      name. */
  function StrategyModules(): map<string, string> {
    map name | name in StrategyNames() :: "strategies." + name
  }

  /** What the import machinery finds: for each importable module path, the
      classes it defines by name, each with the outcome of constructing it
      from the configuration (an instance, or the exception its constructor
      raises). A module path that is absent fails to import. */
  type Importable = map<string, map<string, Result<Strategy, Fault>>>

  /** An environment in which only the Ichimoku module is importable, and its
      class builds from the configuration. The other strategy modules of the
      static table are not part of this model; this environment is one
      possible deployment, not a claim about which modules exist. */
  function IchimokuOnly(cfg: Config): Importable {
    map["strategies.ichimoku" := map["IchimokuStrategy" := Success(Ichimoku(cfg))]]
  }

  /** Title-cases every word. */
  function TitleAll(words: seq<string>): (r: seq<string>)
    ensures |r| == |words|
    ensures forall i :: 0 <= i < |words| ==> r[i] == Text.Title(words[i])
  {
    if words == [] then [] else [Text.Title(words[0])] + TitleAll(words[1..])
  }

  /** The class looked up in a strategy's module: the `_`-separated words of
      its name, each title-cased, run together, then "Strategy". */
  function ClassName(name: string): string {
    Text.Concat(TitleAll(Text.Split(name, '_'))) + "Strategy"
  }

  /** The class name of a one-word name. */
  lemma ClassNameOneWord(a: string)
    requires Text.Free(a, '_')
    ensures ClassName(a) == Text.Title(a) + "Strategy"
  {
    assert a == Text.Join([a], '_');
    Text.SplitJoin([a], '_');
    assert TitleAll([a]) == [Text.Title(a)];
    assert Text.Concat([Text.Title(a)]) == Text.Title(a) + Text.Concat([]);
  }

  /** The class name of a two-word name. */
  lemma ClassNameTwoWords(a: string, b: string)
    requires Text.Free(a, '_') && Text.Free(b, '_')
    ensures ClassName(a + "_" + b) == Text.Title(a) + Text.Title(b) + "Strategy"
  {
    assert a + "_" + b == Text.Join([a, b], '_');
    Text.SplitJoin([a, b], '_');
    assert TitleAll([a, b]) == [Text.Title(a), Text.Title(b)];
    assert Text.Concat([Text.Title(a), Text.Title(b)]) == Text.Title(a) + Text.Concat([Text.Title(b)]);
    assert Text.Concat([Text.Title(b)]) == Text.Title(b) + Text.Concat([]);
  }

  /** A lower-case word is title-cased by upper-casing its first letter. */
  lemma TitleLowerWord(c: char, rest: string)
    requires Text.IsLower(c) && forall i :: 0 <= i < |rest| ==> Text.IsLower(rest[i])
    ensures Text.Title([c] + rest) == [Text.ToUpper(c)] + rest
  {
    assert ([c] + rest)[1..] == rest;
    LowerAfterCased(rest);
  }

  lemma {:induction false} LowerAfterCased(s: string)
    requires forall i :: 0 <= i < |s| ==> Text.IsLower(s[i])
    ensures Text.TitleFrom(s, true) == s
    decreases |s|
  {
    if s != [] {
      LowerAfterCased(s[1..]);
    }
  }

  /** The class-name rule on a two-word name. */
  lemma PivotPointClassName(name: string)
    requires name == "pivot_point"
    ensures ClassName(name) == "PivotPointStrategy"
  {
    var p, ivot, oint := 'p', "ivot", "oint";
    var a, b := [p] + ivot, [p] + oint;
    assert name == a + "_" + b;
    ClassNameTwoWords(a, b);
    TitleLowerWord(p, ivot);
    TitleLowerWord(p, oint);
  }

  /** The class-name rule on a one-word name. */
  lemma IchimokuClassName(name: string)
    requires name == "ichimoku"
    ensures ClassName(name) == "IchimokuStrategy"
  {
    var i, chimoku := 'i', "chimoku";
    assert name == [i] + chimoku;
    ClassNameOneWord(name);
    TitleLowerWord(i, chimoku);
  }

  /** The name is in the table and its module imports. */
  predicate Imports(name: string, env: Importable) {
    name in StrategyModules() && StrategyModules()[name] in env
  }

  /** Loading `name` succeeds: it is in the table, its module imports, the
      module defines the class and the class builds. */
  predicate Loads(name: string, env: Importable) {
    && Imports(name, env)
    && ClassName(name) in env[StrategyModules()[name]]
    && env[StrategyModules()[name]][ClassName(name)].Success?
  }

  /** The instance a loadable name is registered with. */
  function Instance(name: string, env: Importable): Strategy
    requires Loads(name, env)
  {
    env[StrategyModules()[name]][ClassName(name)].value
  }

  /** One pass of the loading loop: a name that loads is (re)registered; any
      other is logged and skipped. */
  function LoadOne(registry: map<string, Strategy>, name: string, env: Importable): map<string, Strategy> {
    if Loads(name, env) then registry[name := Instance(name, env)] else registry
  }

  /** `_load_strategies` over `names`, starting from `registry`. */
  function Loaded(registry: map<string, Strategy>, names: seq<string>, env: Importable): map<string, Strategy>
    decreases |names|
  {
    if names == [] then registry
    else LoadOne(Loaded(registry, names[..|names| - 1], env), names[|names| - 1], env)
  }

  /** After loading, the registry holds its previous entries and exactly the
      listed names that load; a listed name that loads maps to its instance
      and every other entry is kept as it was. In particular a name missing
      from the table never enters the registry, and no key is ever removed. */
  lemma {:induction false} LoadedSpec(registry: map<string, Strategy>, names: seq<string>, env: Importable)
    ensures var r := Loaded(registry, names, env);
      forall n :: n in r <==> n in registry || (n in names && Loads(n, env))
    ensures var r := Loaded(registry, names, env);
      forall n :: n in r ==> r[n] == if n in names && Loads(n, env) then Instance(n, env) else registry[n]
    decreases |names|
  {
    if names != [] {
      var init := names[..|names| - 1];
      LoadedSpec(registry, init, env);
      assert names == init + [names[|names| - 1]];
      forall n ensures n in names <==> n in init || n == names[|names| - 1] {
        if n in names {
          var i :| 0 <= i < |names| && names[i] == n;
          if i < |names| - 1 { assert init[i] == n; }
        }
      }
    }
  }

  /** When only the Ichimoku module is importable, only the Ichimoku strategy
      loads. */
  lemma IchimokuOnlyLoads(cfg: Config, name: string)
    ensures Loads(name, IchimokuOnly(cfg)) <==> name == "ichimoku"
    ensures name == "ichimoku" ==> Instance(name, IchimokuOnly(cfg)) == Ichimoku(cfg)
  {
    if name == "ichimoku" {
      IchimokuLoads(cfg, name);
    } else {
      OthersDoNotLoad(cfg, name);
    }
  }

  lemma IchimokuLoads(cfg: Config, name: string)
    requires name == "ichimoku"
    ensures Loads(name, IchimokuOnly(cfg)) && Instance(name, IchimokuOnly(cfg)) == Ichimoku(cfg)
  {
    IchimokuClassName(name);
    assert name in StrategyNames();
    assert StrategyModules()[name] == "strategies.ichimoku";
  }

  lemma OthersDoNotLoad(cfg: Config, name: string)
    requires name != "ichimoku"
    ensures !Loads(name, IchimokuOnly(cfg))
  {
    OthersDoNotImport(cfg, name);
  }

  lemma OthersDoNotImport(cfg: Config, name: string)
    requires name != "ichimoku"
    ensures !Imports(name, IchimokuOnly(cfg))
  {
    if name in StrategyModules() {
      var path := StrategyModules()[name];
      assert path == "strategies." + name;
      assert path !in IchimokuOnly(cfg) by {
        assert path[11..] == name;
        assert "strategies.ichimoku"[11..] == "ichimoku";
      }
    }
  }

  /** When only the Ichimoku module is importable, loading registers the
      Ichimoku strategy, built with the manager's configuration, when it is
      enabled, and nothing else. */
  lemma IchimokuOnlyRegistry(cfg: Config, names: seq<string>)
    ensures var r := Loaded(map[], names, IchimokuOnly(cfg));
      && r.Keys == (if "ichimoku" in names then {"ichimoku"} else {})
      && ("ichimoku" in r ==> r["ichimoku"] == Ichimoku(cfg))
  {
    var env := IchimokuOnly(cfg);
    LoadedSpec(map[], names, env);
    var r := Loaded(map[], names, env);
    IchimokuOnlyLoads(cfg, "ichimoku");
    forall n | n in r ensures n == "ichimoku" {
      IchimokuOnlyLoads(cfg, n);
    }
  }

  /** With the default configuration, which enables Ichimoku first, and only
      the Ichimoku module importable, the registry holds Ichimoku alone. */
  lemma IchimokuOnlyDefaultRegistry()
    ensures var r := Loaded(map[], Default().enabledStrategies, IchimokuOnly(Default()));
      r.Keys == {"ichimoku"} && r["ichimoku"] == Ichimoku(Default())
  {
    var cfg := Default();
    var names := cfg.enabledStrategies;
    assert names[0] == "ichimoku";
    IchimokuOnlyRegistry(cfg, names);
  }

  // ---------------------------------------------------------------------------
  // Signal generation
  // ---------------------------------------------------------------------------

  /** What one enabled name adds: nothing when it is not registered or its
      strategy raised (the error is logged), its signals otherwise. */
  function Contribution(registry: map<string, Strategy>, name: string, data: Table, now: int): seq<Signal> {
    if name !in registry then []
    else match Run(registry[name], data, now)
      case Success(signals) => signals
      case Failure(_) => []
  }

  /** The signals collected over `names`, in list order. */
  function Collected(registry: map<string, Strategy>, names: seq<string>, data: Table, now: int): seq<Signal>
    decreases |names|
  {
    if names == [] then []
    else Collected(registry, names[..|names| - 1], data, now) + Contribution(registry, names[|names| - 1], data, now)
  }

  /** Collection follows the enabled list: the signals of a list are those of
      its first part followed by those of the rest. */
  lemma {:induction false} CollectedAppend(registry: map<string, Strategy>, a: seq<string>, b: seq<string>, data: Table, now: int)
    ensures Collected(registry, a + b, data, now) == Collected(registry, a, data, now) + Collected(registry, b, data, now)
    decreases |b|
  {
    if b == [] {
      assert a + b == a;
    } else {
      var bInit := b[..|b| - 1];
      CollectedAppend(registry, a, bInit, data, now);
      assert (a + b)[..|a + b| - 1] == a + bInit;
    }
  }

  /** A strategy that raises contributes exactly what an unregistered one
      does: nothing, while every other strategy's signals are still collected. */
  lemma {:induction false} FailureIsolated(registry: map<string, Strategy>, names: seq<string>, name: string, data: Table, now: int)
    requires name in registry && Run(registry[name], data, now).Failure?
    ensures Collected(registry, names, data, now) == Collected(registry - {name}, names, data, now)
    decreases |names|
  {
    if names != [] {
      FailureIsolated(registry, names[..|names| - 1], name, data, now);
      var last := names[|names| - 1];
      assert Contribution(registry, last, data, now) == Contribution(registry - {name}, last, data, now) by {
        if last != name {
          assert last in registry <==> last in registry - {name};
          if last in registry { assert (registry - {name})[last] == registry[last]; }
        }
      }
    }
  }

  /** A registered strategy that is not enabled is never run. */
  lemma {:induction false} DisabledNotRun(registry: map<string, Strategy>, names: seq<string>, name: string, data: Table, now: int)
    requires name !in names
    ensures Collected(registry, names, data, now) == Collected(registry - {name}, names, data, now)
    decreases |names|
  {
    if names != [] {
      var init := names[..|names| - 1];
      assert forall x :: x in init ==> x in names;
      DisabledNotRun(registry, init, name, data, now);
      var last := names[|names| - 1];
      assert last != name;
      if last in registry { assert (registry - {name})[last] == registry[last]; }
    }
  }

  /** The sort key `signal.get('confidence', 0)`. */
  function Key(s: Signal): real {
    s.confidence.GetOr(0.0)
  }

  predicate SortedByConfidence(xs: seq<Signal>) {
    forall i, j :: 0 <= i < j < |xs| ==> Key(xs[i]) >= Key(xs[j])
  }

  /** Places `x` before the first element whose key is not above its own. */
  function Insert(x: Signal, ys: seq<Signal>): seq<Signal>
    decreases |ys|
  {
    if ys == [] || Key(x) >= Key(ys[0]) then [x] + ys else [ys[0]] + Insert(x, ys[1..])
  }

  /** `list.sort(key=..., reverse=True)`: descending by confidence, and
      stable, as Python's sort is. */
  function SortDesc(xs: seq<Signal>): seq<Signal>
    decreases |xs|
  {
    if xs == [] then [] else Insert(xs[0], SortDesc(xs[1..]))
  }

  /** The elements whose key is `k`, in order. */
  function WithKey(xs: seq<Signal>, k: real): seq<Signal>
    decreases |xs|
  {
    if xs == [] then [] else (if Key(xs[0]) == k then [xs[0]] else []) + WithKey(xs[1..], k)
  }

  lemma {:induction false} WithKeyAppend(xs: seq<Signal>, ys: seq<Signal>, k: real)
    ensures WithKey(xs + ys, k) == WithKey(xs, k) + WithKey(ys, k)
    decreases |xs|
  {
    if xs == [] {
      assert xs + ys == ys;
    } else {
      WithKeyAppend(xs[1..], ys, k);
      assert (xs + ys)[1..] == xs[1..] + ys;
    }
  }

  /** Insertion adds `x` and nothing else. */
  lemma {:induction false} InsertPermutes(x: Signal, ys: seq<Signal>)
    ensures multiset(Insert(x, ys)) == multiset([x] + ys)
    decreases |ys|
  {
    if ys != [] && Key(x) < Key(ys[0]) {
      InsertPermutes(x, ys[1..]);
      assert ys == [ys[0]] + ys[1..];
    }
  }

  /** Insertion keeps, for every key, the order of the signals with that
      key, with `x` first among its equals. */
  lemma {:induction false} InsertStable(x: Signal, ys: seq<Signal>, k: real)
    ensures WithKey(Insert(x, ys), k) == WithKey([x] + ys, k)
    decreases |ys|
  {
    if ys != [] && Key(x) < Key(ys[0]) {
      var rest := Insert(x, ys[1..]);
      InsertStable(x, ys[1..], k);
      assert ys == [ys[0]] + ys[1..];
      WithKeyAppend([ys[0]], rest, k);
      WithKeyAppend([x], ys[1..], k);
      WithKeyAppend([ys[0]], ys[1..], k);
      WithKeyAppend([x], ys, k);
    }
  }

  /** Insertion into a descending list keeps it descending. */
  lemma {:induction false} InsertSorted(x: Signal, ys: seq<Signal>)
    requires SortedByConfidence(ys)
    ensures SortedByConfidence(Insert(x, ys))
    decreases |ys|
  {
    var r := Insert(x, ys);
    if ys != [] && Key(x) < Key(ys[0]) {
      var rest := Insert(x, ys[1..]);
      InsertSorted(x, ys[1..]);
      forall j | 0 <= j < |ys[1..]| ensures Key(ys[1..][j]) <= Key(ys[0]) {
        assert ys[1..][j] == ys[j + 1];
      }
      InsertBounded(x, ys[1..], Key(ys[0]));
      assert r == [ys[0]] + rest;
      SortedCons(ys[0], rest);
    } else if ys != [] {
      assert r == [x] + ys;
      SortedCons(x, ys);
    }
  }

  /** Inserting below a bound into a list below that bound stays below it. */
  lemma {:induction false} InsertBounded(x: Signal, ys: seq<Signal>, b: real)
    requires Key(x) <= b
    requires forall j :: 0 <= j < |ys| ==> Key(ys[j]) <= b
    ensures forall j :: 0 <= j < |Insert(x, ys)| ==> Key(Insert(x, ys)[j]) <= b
    decreases |ys|
  {
    if ys != [] && Key(x) < Key(ys[0]) {
      InsertBounded(x, ys[1..], b);
      var rest := Insert(x, ys[1..]);
      forall j | 0 <= j < |ys[1..]| ensures Key(ys[1..][j]) <= b {
        assert ys[1..][j] == ys[j + 1];
      }
      assert Insert(x, ys) == [ys[0]] + rest;
    }
  }

  /** A descending list headed by a key no smaller than all of its own is
      descending. */
  lemma SortedCons(h: Signal, t: seq<Signal>)
    requires SortedByConfidence(t)
    requires forall j :: 0 <= j < |t| ==> Key(t[j]) <= Key(h)
    ensures SortedByConfidence([h] + t)
  {
    var r := [h] + t;
    forall i, j | 0 <= i < j < |r| ensures Key(r[i]) >= Key(r[j]) {
      assert r[j] == t[j - 1];
      if i > 0 { assert r[i] == t[i - 1]; }
    }
  }

  /** The sort is a permutation, descending by confidence, and stable: the
      signals of any one confidence appear in their original order. These
      three facts determine its result. */
  lemma {:induction false} SortDescSpec(xs: seq<Signal>)
    ensures multiset(SortDesc(xs)) == multiset(xs)
    ensures SortedByConfidence(SortDesc(xs))
    ensures forall k :: WithKey(SortDesc(xs), k) == WithKey(xs, k)
    decreases |xs|
  {
    if xs != [] {
      var rest := SortDesc(xs[1..]);
      SortDescSpec(xs[1..]);
      InsertPermutes(xs[0], rest);
      InsertSorted(xs[0], rest);
      assert xs == [xs[0]] + xs[1..];
      forall k ensures WithKey(SortDesc(xs), k) == WithKey(xs, k) {
        InsertStable(xs[0], rest, k);
        WithKeyAppend([xs[0]], rest, k);
        WithKeyAppend([xs[0]], xs[1..], k);
      }
    }
  }

  /** The collected signals as returned: sorted when the first one carries a
      confidence, in collection order otherwise. */
  function Ordered(all: seq<Signal>): seq<Signal> {
    if |all| > 0 && all[0].confidence.Some? then SortDesc(all) else all
  }

  /** Ordering never adds, drops or duplicates a signal, and it sorts exactly
      when the first collected signal carries a confidence. */
  lemma OrderedSpec(all: seq<Signal>)
    ensures multiset(Ordered(all)) == multiset(all)
    ensures |all| > 0 && all[0].confidence.Some? ==> SortedByConfidence(Ordered(all))
    ensures !(|all| > 0 && all[0].confidence.Some?) ==> Ordered(all) == all
  {
    SortDescSpec(all);
  }

  // ---------------------------------------------------------------------------
  // Combining signals
  // ---------------------------------------------------------------------------

  /** The signals on one side, in order. */
  function OnSide(signals: seq<Signal>, side: string): (r: seq<Signal>)
    ensures |r| <= |signals|
    decreases |signals|
  {
    if signals == [] then []
    else (if signals[0].side == side then [signals[0]] else []) + OnSide(signals[1..], side)
  }

  lemma {:induction false} OnSideMembers(signals: seq<Signal>, side: string)
    ensures forall x :: x in OnSide(signals, side) <==> x in signals && x.side == side
    decreases |signals|
  {
    if signals != [] {
      OnSideMembers(signals[1..], side);
      assert signals == [signals[0]] + signals[1..];
    }
  }

  /** The two sides never hold more signals together than the input does. */
  lemma {:induction false} SidesDisjoint(signals: seq<Signal>)
    ensures |OnSide(signals, Buy)| + |OnSide(signals, Sell)| <= |signals|
    decreases |signals|
  {
    if signals != [] {
      SidesDisjoint(signals[1..]);
    }
  }

  /** The first index of a maximal key among the first `n` elements: the
      element Python's `max(..., key=...)` returns. */
  function FirstMax(g: seq<Signal>, n: int): (k: int)
    requires 0 < n <= |g|
    ensures 0 <= k < n
    decreases n
  {
    if n == 1 then 0
    else
      var k := FirstMax(g, n - 1);
      if Key(g[n - 1]) > Key(g[k]) then n - 1 else k
  }

  lemma {:induction false} FirstMaxSpec(g: seq<Signal>, n: int)
    requires 0 < n <= |g|
    ensures var k := FirstMax(g, n);
      && 0 <= k < n
      && (forall j :: 0 <= j < n ==> Key(g[j]) <= Key(g[k]))
      && (forall j :: 0 <= j < k ==> Key(g[j]) < Key(g[k]))
    decreases n
  {
    if n > 1 {
      FirstMaxSpec(g, n - 1);
    }
  }

  /** The signal chosen for one side: the first with the highest confidence
      when the first of the side carries one, the first of the side otherwise. */
  function Best(group: seq<Signal>): Signal
    requires |group| > 0
  {
    if group[0].confidence.Some? then group[FirstMax(group, |group|)] else group[0]
  }

  /** `len(side) / total > 0.6`, on exact rationals. */
  predicate Majority(count: int, total: int)
    requires total > 0
  {
    (count as real) / (total as real) > 0.6
  }

  lemma MajorityIff(count: int, total: int)
    requires total > 0
    ensures Majority(count, total) <==> 5 * count > 3 * total
  {
    var c := count as real;
    var t := total as real;
    var q := c / t;
    assert q * t == c;
    ScaleStrict(q, 0.6, t);
    assert Majority(count, total) <==> q > 0.6;
    assert q > 0.6 <==> c > 0.6 * t;
    assert 5 * count > 3 * total <==> c > 0.6 * t;
  }

  /** Multiplying by a positive number keeps a strict order. */
  lemma ScaleStrict(a: real, b: real, t: real)
    requires t > 0.0
    ensures a > b <==> a * t > b * t
  {
    if a > b {
      assert (a - b) * t > 0.0;
    } else {
      assert (b - a) * t >= 0.0;
    }
  }

  /** `combine_signals`: the best signal of a side whose share of the input
      is above 60%. */
  function CombineSignals(signals: seq<Signal>): seq<Signal> {
    if |signals| == 0 then []
    else
      var buys := OnSide(signals, Buy);
      var sells := OnSide(signals, Sell);
      var total := |signals|;
      (if Majority(|buys|, total) && |buys| > 0 then [Best(buys)] else [])
      + (if Majority(|sells|, total) && |sells| > 0 then [Best(sells)] else [])
  }

  /** No signals combine to none. Otherwise the result is one signal of the
      input at most: a buy exactly when more than 3 in 5 signals are buys, a
      sell exactly when more than 3 in 5 are sells, and it is the side's
      first signal when that carries no confidence, or else the side's first
      signal of the highest confidence. */
  lemma CombineSpec(signals: seq<Signal>)
    ensures |signals| == 0 ==> CombineSignals(signals) == []
    ensures var r := CombineSignals(signals);
      && |r| <= 1
      && (|r| == 1 ==> r[0] in signals)
    ensures var r := CombineSignals(signals);
      var buys := OnSide(signals, Buy);
      (|r| == 1 && r[0].side == Buy <==> 5 * |buys| > 3 * |signals|)
    ensures var r := CombineSignals(signals);
      var sells := OnSide(signals, Sell);
      (|r| == 1 && r[0].side == Sell <==> 5 * |sells| > 3 * |signals|)
    ensures var r := CombineSignals(signals);
      |r| == 1 ==>
        var group := OnSide(signals, r[0].side);
        && |group| > 0
        && (group[0].confidence.None? ==> r[0] == group[0])
        && (group[0].confidence.Some? ==>
              (forall x :: x in group ==> Key(x) <= Key(r[0]))
              && r[0] in group)
  {
    if |signals| > 0 {
      var buys := OnSide(signals, Buy);
      var sells := OnSide(signals, Sell);
      CombineCases(signals);
      OnSideMembers(signals, Buy);
      OnSideMembers(signals, Sell);
      if |buys| > 0 {
        BestInGroup(buys);
      }
      if |sells| > 0 {
        BestInGroup(sells);
      }
    }
  }

  /** At most one side holds a majority, and a side with a majority is never
      empty. */
  lemma CombineCases(signals: seq<Signal>)
    requires |signals| > 0
    ensures var n := |signals|;
      var buys := OnSide(signals, Buy);
      var sells := OnSide(signals, Sell);
      && !(5 * |buys| > 3 * n && 5 * |sells| > 3 * n)
      && CombineSignals(signals) ==
           if 5 * |buys| > 3 * n then [Best(buys)]
           else if 5 * |sells| > 3 * n then [Best(sells)]
           else []
  {
    var n := |signals|;
    MajorityIff(|OnSide(signals, Buy)|, n);
    MajorityIff(|OnSide(signals, Sell)|, n);
    SidesDisjoint(signals);
  }

  /** The chosen signal belongs to the group and, when the group's first
      carries a confidence, no signal of the group has a higher one. */
  lemma BestInGroup(group: seq<Signal>)
    requires |group| > 0
    ensures Best(group) in group
    ensures group[0].confidence.None? ==> Best(group) == group[0]
    ensures group[0].confidence.Some? ==> forall x :: x in group ==> Key(x) <= Key(Best(group))
  {
    FirstMaxSpec(group, |group|);
  }

  /** The first of the highest confidence is chosen: no earlier signal of the
      side has that confidence. */
  lemma BestIsFirstOfHighest(group: seq<Signal>)
    requires |group| > 0 && group[0].confidence.Some?
    ensures var k := FirstMax(group, |group|);
      && Best(group) == group[k]
      && (forall j :: 0 <= j < |group| ==> Key(group[j]) <= Key(group[k]))
      && (forall j :: 0 <= j < k ==> Key(group[j]) < Key(group[k]))
  {
    FirstMaxSpec(group, |group|);
  }

  /** Two buys and a sell, none with a confidence, combine to the first buy. */
  lemma TwoBuysOneSellExample(b1: Signal, s1: Signal, b2: Signal)
    requires b1.side == Buy && b2.side == Buy && s1.side == Sell
    requires b1.confidence.None? && b2.confidence.None? && s1.confidence.None?
    ensures CombineSignals([b1, s1, b2]) == [b1]
  {
    var signals := [b1, s1, b2];
    assert OnSide(signals, Buy) == [b1, b2] by {
      assert OnSide([b2], Buy) == [b2];
      assert OnSide([s1, b2], Buy) == [b2] by { assert [s1, b2][1..] == [b2]; }
      assert signals[1..] == [s1, b2];
    }
    assert OnSide(signals, Sell) == [s1] by {
      assert Sell != Buy;
      assert OnSide([b2], Sell) == [];
      assert OnSide([s1, b2], Sell) == [s1] by { assert [s1, b2][1..] == [b2]; }
      assert signals[1..] == [s1, b2];
    }
    MajorityIff(2, 3);
    MajorityIff(1, 3);
  }

  // ---------------------------------------------------------------------------
  // The manager
  // ---------------------------------------------------------------------------

  class StrategyManager {
    const config: Config
    /** Loaded strategies by name. */
    var strategies: map<string, Strategy>
    var enabledStrategies: seq<string>

    /** Starts from the configured list and loads it into an empty registry. */
    constructor(config: Config, env: Importable)
      ensures this.config == config
      ensures enabledStrategies == config.enabledStrategies
      ensures strategies == Loaded(map[], config.enabledStrategies, env)
    {
      this.config := config;
      strategies := map[];
      enabledStrategies := config.enabledStrategies;
      new;
      LoadStrategies(env);
    }

    /** `_load_strategies`: registers every enabled name that loads, on top
        of what is already registered. */
    method LoadStrategies(env: Importable)
      modifies this
      ensures enabledStrategies == old(enabledStrategies)
      ensures strategies == Loaded(old(strategies), enabledStrategies, env)
    {
      ghost var start := strategies;
      var names := enabledStrategies;
      var k := 0;
      while k < |names|
        invariant 0 <= k <= |names|
        invariant enabledStrategies == names
        invariant strategies == Loaded(start, names[..k], env)
      {
        var name := names[k];
        assert names[..k + 1][..k] == names[..k];
        if name in StrategyModules() {
          var path := StrategyModules()[name];
          var className := ClassName(name);
          if path in env && className in env[path] && env[path][className].Success? {
            strategies := strategies[name := env[path][className].value];
          }
        }
        k := k + 1;
      }
      assert names[..k] == names;
    }

    /** `set_enabled_strategies`: replaces the list and loads it; entries
        registered before are kept. */
    method SetEnabledStrategies(strategyList: seq<string>, env: Importable)
      modifies this
      ensures enabledStrategies == strategyList
      ensures strategies == Loaded(old(strategies), strategyList, env)
    {
      enabledStrategies := strategyList;
      LoadStrategies(env);
    }

    /** One strategy's `generate_signals` on the frame. */
    method RunStrategy(s: Strategy, data: Frame, now: int) returns (r: Result<seq<Signal>, Fault>)
      ensures r == Run(s, data.Snapshot(), now)
    {
      match s
      case Base =>
        r := Success(BaseStrategy.GenerateSignals(data.Snapshot()));
      case Ichimoku(cfg) =>
        r := IchimokuStrategy.GenerateSignals(cfg, data, now);
      case Other(run) =>
        r := run(data.Snapshot(), now);
    }

    /** `generate_signals`: the signals of every enabled, registered strategy
        in list order, a failing strategy contributing none, then ordered by
        confidence when the first one carries a confidence. */
    method GenerateSignals(data: Frame, now: int) returns (allSignals: seq<Signal>)
      ensures allSignals == Ordered(Collected(strategies, enabledStrategies, data.Snapshot(), now))
    {
      allSignals := [];
      var names := enabledStrategies;
      var k := 0;
      while k < |names|
        invariant 0 <= k <= |names|
        invariant allSignals == Collected(strategies, names[..k], data.Snapshot(), now)
      {
        var name := names[k];
        assert names[..k + 1][..k] == names[..k];
        if name in strategies {
          var r := RunStrategy(strategies[name], data, now);
          if r.Success? {
            allSignals := allSignals + r.value;
          }
        }
        k := k + 1;
      }
      assert names[..k] == names;
      if |allSignals| > 0 && allSignals[0].confidence.Some? {
        allSignals := SortDesc(allSignals);
      }
    }
  }
}
