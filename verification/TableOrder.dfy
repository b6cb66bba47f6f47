/**
  The order in which tables are copied: a layered topological sort of the
  cross-table foreign keys.
*/
module TableOrder {
  import opened Base
  import opened MigrationProtocol
  import opened MigrationSafety

  // ---------------------------------------------------------------------
  // Names

  const EXCLUDED_TABLES: set<Table> := {"cache", "cache_locks", "jobs", "migrations", "sessions"}

  /** A listed table without its schema prefix: what follows the last dot. */
  function BareName(name: string): (r: Table)
    ensures '.' !in r
    ensures |r| <= |name| && r == name[|name| - |r|..]
    ensures r == name || name[|name| - |r| - 1] == '.'
  {
    if '.' !in name then name
    else if '.' in name[1..] then BareName(name[1..])
    else name[1..]
  }

  /** Names sort by their characters. */
  predicate Less(a: string, b: string) {
    b != "" && (a == "" || a[0] < b[0] || (a[0] == b[0] && Less(a[1..], b[1..])))
  }

  lemma {:induction false} LessIsTotal(a: string, b: string)
    ensures Less(a, b) || a == b || Less(b, a)
  {
    if a != "" && b != "" && a[0] == b[0] {
      LessIsTotal(a[1..], b[1..]);
    }
  }

  lemma {:induction false} LessIsStrict(a: string, b: string, c: string)
    ensures !Less(a, a)
    ensures Less(a, b) && Less(b, c) ==> Less(a, c)
  {
    if a != "" && b != "" && c != "" {
      LessIsStrict(a[1..], b[1..], c[1..]);
    } else if a != "" {
      LessIsStrict(a[1..], "", "");
    }
  }

  /** The first place where two names differ decides, and a name comes before its
      continuations. */
  lemma {:induction false} LessIsLexicographic(a: string, b: string)
    ensures Less(a, b)
            <==> exists n | 0 <= n <= |a| && n < |b| && a[..n] == b[..n] :: n == |a| || a[n] < b[n]
    decreases |a|
  {
    if Less(a, b) {
      var n := FirstDifference(a, b);
      assert a[..n] == b[..n];
    }
    if n :| 0 <= n <= |a| && n < |b| && a[..n] == b[..n] && (n == |a| || a[n] < b[n]) {
      DifferenceDecides(a, b, n);
    }
  }

  lemma {:induction false} FirstDifference(a: string, b: string) returns (n: nat)
    requires Less(a, b)
    ensures n <= |a| && n < |b| && a[..n] == b[..n] && (n == |a| || a[n] < b[n])
    decreases |a|
  {
    n := 0;
    if a != "" && a[0] == b[0] {
      var m := FirstDifference(a[1..], b[1..]);
      n := m + 1;
      assert a[..n] == [a[0]] + a[1..][..m] && b[..n] == [b[0]] + b[1..][..m];
    }
  }

  lemma {:induction false} DifferenceDecides(a: string, b: string, n: nat)
    requires n <= |a| && n < |b| && a[..n] == b[..n] && (n == |a| || a[n] < b[n])
    ensures Less(a, b)
    decreases n
  {
    if n > 0 {
      assert a[0] == a[..n][0] == b[..n][0] == b[0];
      assert a[1..][..n - 1] == a[..n][1..] == b[..n][1..] == b[1..][..n - 1];
      DifferenceDecides(a[1..], b[1..], n - 1);
    }
  }

  predicate Sorted(names: seq<Table>) {
    forall i, j | 0 <= i < j < |names| :: Less(names[i], names[j])
  }

  ghost predicate Lists(names: seq<Table>, s: set<Table>) {
    forall t :: t in names <==> t in s
  }

  /** The place of a name in a sorted list that does not have it yet. */
  method Insert(names: seq<Table>, t: Table) returns (r: seq<Table>)
    requires Sorted(names) && t !in names
    ensures Sorted(r) && forall u :: u in r <==> u == t || u in names
  {
    var i := 0;
    while i < |names| && Less(names[i], t)
      invariant i <= |names| && forall j | 0 <= j < i :: Less(names[j], t)
    {
      i := i + 1;
    }
    r := names[..i] + [t] + names[i..];
    if i < |names| {
      LessIsTotal(names[i], t);
      forall j | i <= j < |names| ensures Less(t, names[j]) {
        LessIsStrict(t, names[i], names[j]);
      }
    }
    assert forall u :: u in names <==> u in names[..i] || u in names[i..];
  }

  method SortNames(s: set<Table>) returns (r: seq<Table>)
    ensures Sorted(r) && Lists(r, s)
  {
    r := [];
    var rest := s;
    while rest != {}
      invariant rest <= s && Sorted(r) && Lists(r, s - rest)
    {
      var t :| t in rest;
      r := Insert(r, t);
      rest := rest - {t};
    }
  }

  // ---------------------------------------------------------------------
  // The graph of cross-table foreign keys

  /** For each durable table, the other durable tables it references. */
  type Graph = map<Table, set<Table>>

  predicate Closed(g: Graph) {
    forall t | t in g :: g[t] <= g.Keys
  }

  /** A walk along foreign keys: each table references the next. */
  ghost predicate Walk(g: Graph, path: seq<Table>) {
    && (forall i | 0 <= i < |path| :: path[i] in g)
    && (forall i | 0 < i < |path| :: path[i] in g[path[i - 1]])
  }

  ghost predicate IsCycle(g: Graph, path: seq<Table>) {
    |path| >= 2 && Walk(g, path) && path[0] == path[|path| - 1]
  }

  ghost predicate Cyclic(g: Graph) {
    exists path :: IsCycle(g, path)
  }

  /** Some walk of n steps starts at t. */
  ghost predicate HasChain(g: Graph, t: Table, n: nat)
    decreases n
  {
    t in g && (n == 0 || exists u | u in g[t] :: HasChain(g, u, n - 1))
  }

  /** The longest dependency chain from t has exactly n steps. */
  ghost predicate Rank(g: Graph, t: Table, n: nat) {
    HasChain(g, t, n) && !HasChain(g, t, n + 1)
  }

  lemma {:induction false} ShorterChain(g: Graph, t: Table, n: nat, m: nat)
    requires HasChain(g, t, n) && m <= n
    ensures HasChain(g, t, m)
    decreases n
  {
    if m > 0 {
      var u :| u in g[t] && HasChain(g, u, n - 1);
      ShorterChain(g, u, n - 1, m - 1);
    }
  }

  lemma RankIsUnique(g: Graph, t: Table, m: nat, n: nat)
    requires Rank(g, t, m) && Rank(g, t, n)
    ensures m == n
  {
    if m < n { ShorterChain(g, t, n, m + 1); }
    if n < m { ShorterChain(g, t, m, n + 1); }
  }

  /** Going round a cycle gives chains of every length. */
  lemma {:induction false} CycleHasChains(g: Graph, path: seq<Table>, i: nat, n: nat)
    requires IsCycle(g, path) && i < |path|
    ensures HasChain(g, path[i], n)
    decreases n
  {
    if n > 0 {
      var next := if i + 1 < |path| then i + 1 else 1;
      CycleHasChains(g, path, next, n - 1);
    }
  }

  /** Where every table references another of the set, one can walk for ever. */
  lemma {:induction false} EndlessWalk(g: Graph, s: set<Table>, t: Table, n: nat) returns (path: seq<Table>)
    requires s <= g.Keys && t in s && forall u | u in s :: g[u] * s != {}
    ensures |path| == n + 1 && path[0] == t && Walk(g, path) && forall i | 0 <= i < |path| :: path[i] in s
    decreases n
  {
    if n == 0 {
      path := [t];
    } else {
      var u :| u in g[t] * s;
      var rest := EndlessWalk(g, s, u, n - 1);
      path := [t] + rest;
    }
  }

  lemma {:induction false} Pigeonhole(path: seq<Table>, s: set<Table>) returns (i: nat, j: nat)
    requires |path| > |s| && forall k | 0 <= k < |path| :: path[k] in s
    ensures i < j < |path| && path[i] == path[j]
  {
    var t := path[0];
    if k :| 0 < k < |path| && path[k] == t {
      i, j := 0, k;
    } else {
      i, j := Pigeonhole(path[1..], s - {t});
      i, j := i + 1, j + 1;
    }
  }

  lemma StuckIsCyclic(g: Graph, s: set<Table>)
    requires s != {} && s <= g.Keys && forall t | t in s :: g[t] * s != {}
    ensures Cyclic(g)
  {
    var t :| t in s;
    var path := EndlessWalk(g, s, t, |s|);
    var i, j := Pigeonhole(path, s);
    assert IsCycle(g, path[i..j + 1]);
  }

  // ---------------------------------------------------------------------
  // The order

  /** Shorter chains first, then by name. */
  ghost predicate Before(g: Graph, a: Table, b: Table) {
    exists m: nat, n: nat :: Rank(g, a, m) && Rank(g, b, n) && (m < n || (m == n && Less(a, b)))
  }

  lemma BeforeRanks(g: Graph, a: Table, b: Table) returns (m: nat, n: nat)
    requires Before(g, a, b)
    ensures Rank(g, a, m) && Rank(g, b, n) && (m < n || (m == n && Less(a, b)))
  {
    m, n :| Rank(g, a, m) && Rank(g, b, n) && (m < n || (m == n && Less(a, b)));
  }

  lemma BeforeByRank(g: Graph, a: Table, b: Table, m: nat, n: nat)
    requires Rank(g, a, m) && Rank(g, b, n) && (m < n || (m == n && Less(a, b)))
    ensures Before(g, a, b)
  {
  }

  /** Every table listed so far is of a rank below k. */
  ghost predicate Layered(g: Graph, ordered: seq<Table>, k: nat) {
    forall t | t in ordered :: exists n: nat :: n < k && Rank(g, t, n)
  }

  ghost predicate InOrder(g: Graph, ordered: seq<Table>) {
    forall i, j | 0 <= i < j < |ordered| :: Before(g, ordered[i], ordered[j])
  }

  lemma ReferencedHasShorterRank(g: Graph, t: Table, u: Table, m: nat, n: nat)
    requires Rank(g, t, m) && Rank(g, u, n) && u in g[t]
    ensures n < m
  {
    if n >= m {
      ShorterChain(g, u, n, m);
    }
  }

  /** A sorted list of all tables has each table after all it references. */
  lemma ReferencedFirst(g: Graph, ordered: seq<Table>, j: nat, u: Table)
    requires Closed(g) && Lists(ordered, g.Keys) && InOrder(g, ordered)
    requires j < |ordered| && u in g[ordered[j]] && u != ordered[j]
    ensures u in ordered[..j]
  {
    var t := ordered[j];
    assert u in g.Keys;
    var k :| 0 <= k < |ordered| && ordered[k] == u;
    if k > j {
      var m, n := BeforeRanks(g, t, u);
      ReferencedHasShorterRank(g, t, u, m, n);
    }
    assert ordered[..j][k] == u;
  }

  /** Being in order leaves no choice. */
  lemma BeforeIsStrict(g: Graph, a: Table, b: Table)
    ensures !(Before(g, a, b) && Before(g, b, a))
  {
    if Before(g, a, b) && Before(g, b, a) {
      var m, n := BeforeRanks(g, a, b);
      var n', m' := BeforeRanks(g, b, a);
      RankIsUnique(g, a, m, m');
      RankIsUnique(g, b, n, n');
      LessIsStrict(a, b, a);
    }
  }

  /** The layers still to come after k passes. */
  ghost predicate Remaining(g: Graph, dependencies: Graph, k: nat) {
    && (forall t :: t in dependencies <==> HasChain(g, t, k))
    && (forall t | t in dependencies :: dependencies[t] == g[t] * dependencies.Keys)
  }

  predicate Ready(dependencies: Graph, t: Table) {
    t in dependencies && dependencies[t] == {}
  }

  function Strip(dependencies: Graph, ready: set<Table>): Graph {
    map t | t in dependencies && t !in ready :: dependencies[t] - ready
  }

  /** The tables ready in pass k are those whose longest chain has k steps. */
  lemma ReadyIsRank(g: Graph, dependencies: Graph, k: nat, t: Table)
    requires Closed(g) && Remaining(g, dependencies, k)
    ensures Ready(dependencies, t) <==> Rank(g, t, k)
    ensures t in dependencies && !Ready(dependencies, t) <==> HasChain(g, t, k + 1)
  {
    if HasChain(g, t, k + 1) {
      ShorterChain(g, t, k + 1, k);
      var u :| u in g[t] && HasChain(g, u, k);
      assert u in dependencies[t];
    }
    if t in dependencies && dependencies[t] != {} {
      var u :| u in dependencies[t];
      assert u in g[t] && HasChain(g, u, k);
    }
  }

  lemma NextPass(g: Graph, dependencies: Graph, k: nat, ready: set<Table>)
    requires Closed(g) && Remaining(g, dependencies, k)
    requires forall t :: t in ready <==> Ready(dependencies, t)
    ensures Remaining(g, Strip(dependencies, ready), k + 1)
  {
    var rest := Strip(dependencies, ready);
    forall t ensures t in rest <==> HasChain(g, t, k + 1) {
      ReadyIsRank(g, dependencies, k, t);
    }
    forall t | t in rest ensures rest[t] == g[t] * rest.Keys {
    }
  }

  /** One more layer, behind all earlier ones. */
  lemma AppendLayer(g: Graph, ordered: seq<Table>, layer: seq<Table>, k: nat)
    requires InOrder(g, ordered) && Layered(g, ordered, k)
    requires Sorted(layer) && forall t | t in layer :: Rank(g, t, k)
    ensures InOrder(g, ordered + layer)
    ensures Layered(g, ordered + layer, k + 1)
  {
    var all := ordered + layer;
    forall i, j | 0 <= i < j < |all| ensures Before(g, all[i], all[j]) {
      if j >= |ordered| {
        assert all[j] in layer;
        if i < |ordered| {
          assert all[i] in ordered;
          var n: nat :| n < k && Rank(g, all[i], n);
          BeforeByRank(g, all[i], all[j], n, k);
        } else {
          assert all[i] in layer;
          BeforeByRank(g, all[i], all[j], k, k);
        }
      }
    }
    forall t | t in all ensures exists n: nat :: n < k + 1 && Rank(g, t, n) {
      if t in layer {
        assert k < k + 1 && Rank(g, t, k);
      } else {
        var n: nat :| n < k && Rank(g, t, n);
        assert n < k + 1 && Rank(g, t, n);
      }
    }
  }

  lemma AcyclicWhenEmptied(g: Graph, k: nat)
    requires forall t :: !HasChain(g, t, k)
    ensures !Cyclic(g)
  {
    if path :| IsCycle(g, path) {
      CycleHasChains(g, path, 0, k);
    }
  }

  lemma Shrinks(dependencies: Graph, ready: set<Table>, t: Table)
    requires t in dependencies && t in ready
    ensures |Strip(dependencies, ready)| < |dependencies|
  {
    var rest := Strip(dependencies, ready);
    assert rest.Keys <= dependencies.Keys - {t};
    SubsetSize(rest.Keys, dependencies.Keys - {t});
  }

  lemma {:induction false} SubsetSize<T>(a: set<T>, b: set<T>)
    requires a <= b
    ensures |a| <= |b|
  {
    if a != {} {
      var x :| x in a;
      SubsetSize(a - {x}, b - {x});
    }
  }

  /** What holds after k passes. */
  ghost predicate AfterPasses(g: Graph, dependencies: Graph, ordered: seq<Table>, k: nat) {
    && Remaining(g, dependencies, k) && dependencies.Keys <= g.Keys
    && Lists(ordered, g.Keys - dependencies.Keys)
    && InOrder(g, ordered) && Layered(g, ordered, k)
  }

  /** The tables that wait for nothing. */
  function ReadyTables(dependencies: Graph): (r: set<Table>)
    ensures forall t :: t in r <==> Ready(dependencies, t)
  {
    set t | t in dependencies && dependencies[t] == {}
  }

  lemma OnePass(g: Graph, dependencies: Graph, ordered: seq<Table>, k: nat, layer: set<Table>, ready: seq<Table>)
    requires Closed(g) && AfterPasses(g, dependencies, ordered, k)
    requires layer == ReadyTables(dependencies)
    requires Sorted(ready) && Lists(ready, layer) && ready != []
    ensures AfterPasses(g, Strip(dependencies, layer), ordered + ready, k + 1)
    ensures |Strip(dependencies, layer)| < |dependencies|
  {
    NextPass(g, dependencies, k, layer);
    forall t | t in ready ensures Rank(g, t, k) {
      ReadyIsRank(g, dependencies, k, t);
    }
    AppendLayer(g, ordered, ready, k);
    assert ready[0] in ready;
    Shrinks(dependencies, layer, ready[0]);
  }

  lemma StuckPass(g: Graph, dependencies: Graph, ordered: seq<Table>, k: nat)
    requires Closed(g) && AfterPasses(g, dependencies, ordered, k) && dependencies != map[]
    requires Lists([], ReadyTables(dependencies))
    ensures Cyclic(g)
  {
    forall t | t in dependencies ensures g[t] * dependencies.Keys != {} {
      assert t !in ReadyTables(dependencies);
    }
    StuckIsCyclic(g, dependencies.Keys);
  }

  lemma NoPassYet(g: Graph)
    requires Closed(g)
    ensures AfterPasses(g, g, [], 0)
  {
  }

  lemma AllPassed(g: Graph, ordered: seq<Table>, k: nat)
    requires AfterPasses(g, map[], ordered, k)
    ensures Lists(ordered, g.Keys) && InOrder(g, ordered) && !Cyclic(g)
  {
    var none: Graph := map[];
    assert g.Keys - none.Keys == g.Keys;
    AcyclicWhenEmptied(g, k);
  }

  datatype SortError = ForeignKeyCycle

  /** `orderedTables`, from the dependencies on: the tables with nothing left to
      wait for go next, in name order, and no table waits for them any more. */
  method Order(g: Graph) returns (r: Result<seq<Table>, SortError>)
    requires Closed(g)
    ensures r.Err? <==> Cyclic(g)
    ensures r.Ok? ==> Lists(r.value, g.Keys) && InOrder(g, r.value)
  {
    var dependencies := g;
    var ordered: seq<Table> := [];
    ghost var k: nat := 0;
    NoPassYet(g);
    while dependencies != map[]
      invariant AfterPasses(g, dependencies, ordered, k)
      decreases |dependencies|
    {
      var layer := ReadyTables(dependencies);
      var ready := SortNames(layer);
      if ready == [] {
        StuckPass(g, dependencies, ordered, k);
        return Err(ForeignKeyCycle);
      }
      OnePass(g, dependencies, ordered, k, layer, ready);
      ordered := ordered + ready;
      dependencies := Strip(dependencies, layer);
      k := k + 1;
    }
    AllPassed(g, ordered, k);
    return Ok(ordered);
  }

  // ---------------------------------------------------------------------
  // From the schema to the graph

  function DurableTables(listing: seq<string>): set<Table> {
    set name | name in listing && BareName(name) !in EXCLUDED_TABLES :: BareName(name)
  }

  /** A listed name stands for itself, or for what follows its last dot. */
  predicate StandsFor(name: string, t: Table) {
    && '.' !in t
    && (name == t || (|t| < |name| && name[|name| - |t| - 1] == '.' && name[|name| - |t|..] == t))
  }

  /** A table to copy: one of the listing, but for the five that are not copied. */
  ghost predicate IsDurable(listing: seq<string>, t: Table) {
    !IsExcluded(t) && exists name :: name in listing && StandsFor(name, t)
  }

  predicate IsExcluded(t: Table) {
    t == "cache" || t == "cache_locks" || t == "jobs" || t == "migrations" || t == "sessions"
  }

  lemma ExcludedAre(t: Table)
    ensures t in EXCLUDED_TABLES <==> IsExcluded(t)
  {
  }

  lemma ShorterLeavesADot(name: string, longer: Table, shorter: Table)
    requires |shorter| < |longer| <= |name| && longer == name[|name| - |longer|..]
    requires name[|name| - |shorter| - 1] == '.'
    ensures '.' in longer
  {
    assert longer[|longer| - |shorter| - 1] == '.';
  }

  lemma BareNameIs(name: string, t: Table)
    ensures BareName(name) == t <==> StandsFor(name, t)
  {
    var r := BareName(name);
    if StandsFor(name, t) {
      assert t == name[|name| - |t|..];
      if |t| < |r| {
        ShorterLeavesADot(name, r, t);
      } else if |r| < |t| {
        ShorterLeavesADot(name, t, r);
      }
    }
  }

  lemma DurableTablesAre(listing: seq<string>, t: Table)
    ensures t in DurableTables(listing) <==> IsDurable(listing, t)
  {
    ExcludedAre(t);
    if t in DurableTables(listing) {
      var name :| name in listing && BareName(name) !in EXCLUDED_TABLES && BareName(name) == t;
      BareNameIs(name, t);
    }
    if IsDurable(listing, t) {
      var name :| name in listing && StandsFor(name, t);
      BareNameIs(name, t);
    }
  }

  /** Durable tables each of which has a foreign key to the next, which is another
      table, and the last is the first again. */
  ghost predicate IsKeyCycle(listing: seq<string>, foreign: map<Table, seq<Table>>, path: seq<Table>) {
    && |path| >= 2 && path[0] == path[|path| - 1]
    && (forall i | 0 <= i < |path| :: IsDurable(listing, path[i]))
    && (forall i | 0 < i < |path| :: HasKey(foreign, path[i - 1], path[i]))
  }

  predicate HasKey(foreign: map<Table, seq<Table>>, t: Table, u: Table) {
    u != t && t in foreign && u in foreign[t]
  }

  lemma KeyCyclesAre(listing: seq<string>, foreign: map<Table, seq<Table>>, path: seq<Table>)
    ensures IsCycle(Dependencies(DurableTables(listing), foreign), path) <==> IsKeyCycle(listing, foreign, path)
  {
    var g := Dependencies(DurableTables(listing), foreign);
    forall t ensures t in DurableTables(listing) <==> IsDurable(listing, t) {
      DurableTablesAre(listing, t);
    }
  }

  /** The foreign keys that matter: to another durable table. */
  function Dependencies(tables: set<Table>, foreign: map<Table, seq<Table>>): (g: Graph)
    ensures Closed(g) && g.Keys == tables
    ensures forall t | t in tables :: t !in g[t]
    ensures forall t, u | t in tables && t in foreign && u in tables && u != t :: u in g[t] <==> u in foreign[t]
  {
    map t | t in tables :: set u | u in tables && u != t && t in foreign && u in foreign[t]
  }

  /** `orderedTables` on a connection's table listing and foreign keys: an error
      exactly on a cycle of foreign keys, and otherwise every durable table once,
      behind all it refers to. */
  method OrderedTables(listing: seq<string>, foreign: map<Table, seq<Table>>) returns (r: Result<seq<Table>, SortError>)
    ensures var g := Dependencies(DurableTables(listing), foreign);
            && (r.Err? <==> Cyclic(g))
            && (r.Ok? ==> Lists(r.value, DurableTables(listing)) && Distinct(r.value) && InOrder(g, r.value))
    ensures r.Ok? ==> forall j, u | 0 <= j < |r.value| && u in DurableTables(listing) && u != r.value[j]
                        && r.value[j] in foreign && u in foreign[r.value[j]] :: u in r.value[..j]
    ensures r.Err? <==> exists path :: IsKeyCycle(listing, foreign, path)
    ensures r.Ok? ==> forall t :: t in r.value <==> IsDurable(listing, t)
    ensures r.Ok? ==> forall i, j | 0 <= i < j < |r.value| :: r.value[i] != r.value[j]
  {
    var g := Dependencies(DurableTables(listing), foreign);
    r := Order(g);
    forall path ensures IsCycle(g, path) <==> IsKeyCycle(listing, foreign, path) {
      KeyCyclesAre(listing, foreign, path);
    }
    forall t ensures t in DurableTables(listing) <==> IsDurable(listing, t) {
      DurableTablesAre(listing, t);
    }
    if r.Ok? {
      OrderedIsDistinct(g, r.value);
      forall j, u | 0 <= j < |r.value| && u in g[r.value[j]] && u != r.value[j] ensures u in r.value[..j] {
        ReferencedFirst(g, r.value, j, u);
      }
    }
  }

  lemma OrderedIsDistinct(g: Graph, ordered: seq<Table>)
    requires InOrder(g, ordered)
    ensures Distinct(ordered)
  {
    forall i, j | 0 <= i < j < |ordered| ensures ordered[i] != ordered[j] {
      BeforeIsStrict(g, ordered[i], ordered[j]);
    }
  }
}
