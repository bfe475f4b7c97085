/** The catalog of worker units and the check that its dependency graph has no cycle. */
module UnitCatalog {
  import opened Prelude

  datatype ScopeKind = RootScope | StorageScope | OwnerSession | ConnectSession

  datatype Descriptor = Descriptor(unitId: string, scopeKind: ScopeKind, dependsOn: seq<string>)

  type Graph = map<string, seq<string>>

  function Ids(catalog: seq<Descriptor>): set<string> {
    set k | 0 <= k < |catalog| :: catalog[k].unitId
  }

  /** Dependencies that are themselves in the catalog, in declaration order. */
  function Known(deps: seq<string>, ids: set<string>): (r: seq<string>)
    ensures forall d :: d in r <==> d in deps && d in ids
  {
    if deps == [] then [] else (if deps[0] in ids then [deps[0]] else []) + Known(deps[1..], ids)
  }

  /** The graph after the first `n` descriptors; a repeated id keeps its last descriptor. */
  function GraphOf(catalog: seq<Descriptor>, n: nat): (g: Graph)
    requires n <= |catalog|
    ensures g.Keys == Ids(catalog[..n])
    ensures forall u, d :: u in g && d in g[u] ==> d in Ids(catalog)
  {
    if n == 0 then map[]
    else
      var g := GraphOf(catalog, n - 1);
      assert catalog[..n] == catalog[..n - 1] + [catalog[n - 1]];
      assert Ids(catalog[..n]) == Ids(catalog[..n - 1]) + {catalog[n - 1].unitId} by {
        assert forall k :: 0 <= k < n - 1 ==> catalog[..n][k] == catalog[..n - 1][k];
        assert catalog[..n][n - 1] == catalog[n - 1];
      }
      g[catalog[n - 1].unitId := Known(catalog[n - 1].dependsOn, Ids(catalog))]
  }

  ghost predicate ClosedGraph(g: Graph) {
    forall u, d :: u in g && d in g[u] ==> d in g
  }

  // -------------------------------------------------------------- cycles

  /** A path along dependency edges; one node alone is a path. */
  ghost predicate IsWalk(g: Graph, p: seq<string>) {
    && p != []
    && (forall k :: 0 <= k < |p| ==> p[k] in g)
    && (forall k :: 0 <= k < |p| - 1 ==> p[k + 1] in g[p[k]])
  }

  ghost predicate IsCycle(g: Graph, p: seq<string>) {
    IsWalk(g, p) && |p| > 1 && p[0] == p[|p| - 1]
  }

  ghost predicate Acyclic(g: Graph) {
    forall p :: !IsCycle(g, p)
  }

  /** Every node comes after all its dependencies. */
  ghost predicate Topological(g: Graph, order: seq<string>) {
    forall k :: 0 <= k < |order| ==> order[k] in g && forall d :: d in g[order[k]] ==> d in order[..k]
  }

  lemma {:induction false} WalkDescends(g: Graph, order: seq<string>, p: seq<string>, k: nat)
    requires Topological(g, order) && IsWalk(g, p)
    requires k < |order| && order[k] == p[0]
    ensures exists m: nat :: m <= k && order[m] == p[|p| - 1] && (|p| > 1 ==> m < k)
  {
    if |p| > 1 {
      assert p[1] in g[p[0]];
      var j :| 0 <= j < k && order[j] == p[1];
      assert IsWalk(g, p[1..]);
      WalkDescends(g, order, p[1..], j);
    }
  }

  /** An order that covers a cycle's start would have to contain it strictly before itself, forever. */
  lemma {:induction false} NoCycleInOrder(g: Graph, order: seq<string>, p: seq<string>, k: nat)
    requires Topological(g, order) && IsWalk(g, p) && k < |order| && order[k] == p[0]
    ensures !IsCycle(g, p)
  {
    if IsCycle(g, p) {
      WalkDescends(g, order, p, k);
      var m: nat :| m < k && order[m] == p[|p| - 1];
      NoCycleInOrder(g, order, p, m);
    }
  }

  lemma OrderedIsAcyclic(g: Graph, order: seq<string>)
    requires Topological(g, order) && forall u :: u in g ==> u in order
    ensures Acyclic(g)
  {
    forall p | IsWalk(g, p) ensures !IsCycle(g, p) {
      assert p[0] in order;
      var k :| 0 <= k < |order| && order[k] == p[0];
      NoCycleInOrder(g, order, p, k);
    }
  }

  // ------------------------------------------------------- the reported key

  predicate LexLess(a: string, b: string) {
    b != [] && (a == [] || a[0] < b[0] || (a[0] == b[0] && LexLess(a[1..], b[1..])))
  }

  function Insert(s: string, sorted: seq<string>): seq<string> {
    if sorted == [] || LexLess(s, sorted[0]) then [s] + sorted else [sorted[0]] + Insert(s, sorted[1..])
  }

  function Sorted(names: seq<string>): seq<string> {
    if names == [] then [] else Insert(names[0], Sorted(names[1..]))
  }

  function Join(names: seq<string>, separator: string): string {
    if names == [] then "" else if |names| == 1 then names[0] else names[0] + separator + Join(names[1..], separator)
  }

  function CycleKey(cycle: seq<string>): string { Join(Sorted(cycle), "|") }

  function IndexOf(p: seq<string>, u: string): (k: nat)
    requires u in p
    ensures k < |p| && p[k] == u && u !in p[..k]
  {
    if p[0] == u then 0 else 1 + IndexOf(p[1..], u)
  }

  function Elements(p: seq<string>): set<string> { set u | u in p }

  /** The tail of a path from where it meets itself is a cycle. */
  lemma TailIsCycle(g: Graph, path: seq<string>, u: string)
    requires IsWalk(g, path + [u]) && u in path
    ensures IsCycle(g, path[IndexOf(path, u)..] + [u])
  {
    var i := IndexOf(path, u);
    assert path[i..] + [u] == (path + [u])[i..];
  }

  lemma WalkExtends(g: Graph, path: seq<string>, u: string, d: string)
    requires ClosedGraph(g) && IsWalk(g, path + [u]) && u in g && d in g[u]
    ensures IsWalk(g, path + [u] + [d])
  {
    assert (path + [u])[|path|] == u;
  }

  /** Fewer units are left below a longer path: the termination measure of the search. */
  lemma FewerLeft(g: Graph, path: seq<string>, u: string)
    requires IsWalk(g, path + [u]) && u !in path
    ensures u in g && |g.Keys - Elements(path + [u])| < |g.Keys - Elements(path)|
  {
    assert (path + [u])[|path|] == u;
    assert Elements(path + [u]) == Elements(path) + {u};
    SmallerSet(g.Keys - Elements(path + [u]), g.Keys - Elements(path));
  }

  /** Once all dependencies of a node have settled, it may come next. */
  lemma OrderExtends(g: Graph, order: seq<string>, settled: set<string>, u: string)
    requires OrderOk(g, order, settled) && u in g && forall d :: d in g[u] ==> d in settled
    ensures OrderOk(g, order + [u], settled + {u})
  {
    forall k | 0 <= k <= |order| ensures (order + [u])[..k] == order[..k] {}
    assert order[..|order|] == order;
  }

  lemma OrderSettles(g: Graph, order: seq<string>, settled: set<string>, u: string)
    requires OrderOk(g, order, settled) && u in g && forall d :: d in g[u] ==> d in settled
    ensures OrderOk(g, if u in settled then order else order + [u], settled + {u})
  {
    OrderExtends(g, order, settled, u);
    assert u in settled ==> settled + {u} == settled;
    hide Topological, Elements;
  }

  /** Every reported error is a cycle, and no two have the same key. */
  ghost predicate ErrorsOk(g: Graph, errors: seq<seq<string>>, reported: set<string>) {
    && (forall k :: 0 <= k < |errors| ==> IsCycle(g, errors[k]) && CycleKey(errors[k]) in reported)
    && (forall j, k :: 0 <= j < k < |errors| ==> CycleKey(errors[j]) != CycleKey(errors[k]))
    && (errors == [] ==> reported == {})
  }

  /** The settled units, in the order in which they settled. */
  ghost predicate OrderOk(g: Graph, order: seq<string>, settled: set<string>) {
    Topological(g, order) && settled == Elements(order)
  }

  /** The path by which each unit was entered; those along it were entered by its prefixes. */
  ghost predicate BranchesOk(branch: map<string, seq<string>>) {
    forall x :: x in branch ==> IsBranch(branch, branch[x]) && branch[x][|branch[x]| - 1] == x
  }

  ghost predicate IsBranch(branch: map<string, seq<string>>, p: seq<string>) {
    p != [] && forall i :: 0 <= i < |p| ==> p[i] in branch && branch[p[i]] == p[..i + 1]
  }

  /** The cycle closes the path of its last new unit. */
  ghost predicate FromBranch(branch: map<string, seq<string>>, cycle: seq<string>) {
    && |cycle| >= 2 && cycle[|cycle| - 2] in branch
    && var p := branch[cycle[|cycle| - 2]];
       cycle[0] in p && cycle == p[IndexOf(p, cycle[0])..] + [cycle[0]]
  }

  ghost predicate FromBranches(branch: map<string, seq<string>>, errors: seq<seq<string>>) {
    forall k :: 0 <= k < |errors| ==> FromBranch(branch, errors[k])
  }

  /** A path has no unit twice, so the position of a unit on it is the length of its own path. */
  lemma PlaceOnBranch(branch: map<string, seq<string>>, p: seq<string>, i: nat)
    requires IsBranch(branch, p) && i < |p|
    ensures IndexOf(p, p[i]) == i
  {
    var k := IndexOf(p, p[i]);
    assert branch[p[k]] == p[..k + 1] && branch[p[i]] == p[..i + 1];
  }

  /** Cycles of one search with the same units are the same. */
  lemma SameUnitsSameCycle(branch: map<string, seq<string>>, a: seq<string>, b: seq<string>)
    requires BranchesOk(branch) && FromBranch(branch, a) && FromBranch(branch, b) && Elements(a) == Elements(b)
    ensures a == b
  {
    SameBottom(branch, a, b);
    NoHigher(branch, a, b);
    NoHigher(branch, b, a);
    SameEnds(branch, a, b);
    hide *;
  }

  lemma SameBottom(branch: map<string, seq<string>>, a: seq<string>, b: seq<string>)
    requires BranchesOk(branch) && FromBranch(branch, a) && FromBranch(branch, b) && Elements(a) == Elements(b)
    ensures branch[a[|a| - 2]] == branch[b[|b| - 2]]
  {
    var x, y := a[|a| - 2], b[|b| - 2];
    var i := PrefixOf(branch, a, b);
    var j := PrefixOf(branch, b, a);
    hide BranchesOk, IsBranch, FromBranch, Elements;
    PrefixesOfEachOther(branch[x], branch[y], i, j);
  }

  /** The path of one cycle is a prefix of the path of the other. */
  lemma PrefixOf(branch: map<string, seq<string>>, a: seq<string>, b: seq<string>) returns (n: nat)
    requires BranchesOk(branch) && FromBranch(branch, a) && FromBranch(branch, b) && Elements(a) == Elements(b)
    ensures n <= |branch[b[|b| - 2]]| && branch[a[|a| - 2]] == branch[b[|b| - 2]][..n]
  {
    var x := a[|a| - 2];
    assert x in Elements(b);
    OnBranch(branch, b, IndexOf(b, x));
    n := IndexOf(branch[b[|b| - 2]], x) + 1;
    hide *;
  }

  /** One cycle begins no higher than the other. */
  lemma NoHigher(branch: map<string, seq<string>>, a: seq<string>, b: seq<string>)
    requires BranchesOk(branch) && FromBranch(branch, a) && FromBranch(branch, b) && Elements(a) == Elements(b)
    ensures var q := branch[b[|b| - 2]]; a[0] in q && IndexOf(q, b[0]) <= IndexOf(q, a[0])
  {
    assert a[0] in Elements(b);
    OnBranch(branch, b, IndexOf(b, a[0]));
    hide *;
  }

  lemma PrefixesOfEachOther(p: seq<string>, q: seq<string>, i: nat, j: nat)
    requires i <= |q| && j <= |p| && p == q[..i] && q == p[..j]
    ensures p == q
  { }

  lemma SameEnds(branch: map<string, seq<string>>, a: seq<string>, b: seq<string>)
    requires BranchesOk(branch) && FromBranch(branch, a) && FromBranch(branch, b)
    requires branch[a[|a| - 2]] == branch[b[|b| - 2]]
    requires IndexOf(branch[a[|a| - 2]], a[0]) == IndexOf(branch[a[|a| - 2]], b[0])
    ensures a == b
  { hide BranchesOk; }

  /** A unit of the cycle lies on its path, no higher than where the cycle begins. */
  lemma OnBranch(branch: map<string, seq<string>>, cycle: seq<string>, k: nat)
    requires BranchesOk(branch) && FromBranch(branch, cycle) && k < |cycle|
    ensures var p := branch[cycle[|cycle| - 2]];
            && cycle[0] in p && cycle[k] in p && cycle[k] in branch
            && IndexOf(p, cycle[0]) <= IndexOf(p, cycle[k]) && branch[cycle[k]] == p[..IndexOf(p, cycle[k]) + 1]
  {
    var p := branch[cycle[|cycle| - 2]];
    assert IsBranch(branch, p);
    hide BranchesOk;
    var t := IndexOf(p, cycle[0]);
    var m := if k == |cycle| - 1 then t else t + k;
    assert cycle[k] == p[m];
    PlaceOnBranch(branch, p, m);
    hide FromBranch;
  }

  lemma BranchGrows(branch: map<string, seq<string>>, path: seq<string>, u: string)
    requires BranchesOk(branch) && u !in branch && u !in path
    requires path == [] || (path[|path| - 1] in branch && branch[path[|path| - 1]] == path)
    ensures BranchesOk(branch[u := path + [u]])
  {
    var after, below := branch[u := path + [u]], path + [u];
    forall i | 0 <= i < |below| ensures below[i] in after && after[below[i]] == below[..i + 1] {
      if i < |path| { assert below[..i + 1] == path[..i + 1]; } else { assert below[..i + 1] == below; }
    }
    forall x | x in branch ensures IsBranch(after, branch[x]) && after[x] == branch[x] {
      assert IsBranch(branch, branch[x]);
    }
  }

  ghost predicate Extends(branch: map<string, seq<string>>, older: map<string, seq<string>>) {
    forall x :: x in older ==> x in branch && branch[x] == older[x]
  }

  lemma BranchesStay(branch: map<string, seq<string>>, older: map<string, seq<string>>, errors: seq<seq<string>>)
    requires Extends(branch, older) && FromBranches(older, errors)
    ensures FromBranches(branch, errors)
  {
    forall k | 0 <= k < |errors| ensures FromBranch(branch, errors[k]) { assert FromBranch(older, errors[k]); }
  }

  lemma ClosingIsFromBranch(branch: map<string, seq<string>>, settled: set<string>, path: seq<string>, u: string)
    requires u in path && AtPath(branch, settled, path)
    ensures FromBranch(branch, path[IndexOf(path, u)..] + [u])
  {
    var cycle := path[IndexOf(path, u)..] + [u];
    assert cycle[|cycle| - 2] == path[|path| - 1] && cycle[0] == u;
  }

  /** Where the search is: the units entered are those settled and those on the path. */
  ghost predicate AtPath(branch: map<string, seq<string>>, settled: set<string>, path: seq<string>) {
    && branch.Keys == settled + Elements(path)
    && (path != [] ==> path[|path| - 1] in branch && branch[path[|path| - 1]] == path)
  }

  lemma ExtendsItself(branch: map<string, seq<string>>)
    ensures Extends(branch, branch)
  { }

  lemma ExtendsOn(c: map<string, seq<string>>, b: map<string, seq<string>>, a: map<string, seq<string>>)
    requires Extends(c, b) && Extends(b, a)
    ensures Extends(c, a)
  { }

  lemma Entering(branch: map<string, seq<string>>, settled: set<string>, path: seq<string>, u: string,
    errors: seq<seq<string>>)
    requires BranchesOk(branch) && FromBranches(branch, errors) && AtPath(branch, settled, path)
    requires u !in settled && u !in path
    ensures var after := branch[u := path + [u]];
            && BranchesOk(after) && FromBranches(after, errors)
            && AtPath(after, settled, path + [u]) && Extends(after, branch)
  {
    BranchGrows(branch, path, u);
    BranchesStay(branch[u := path + [u]], branch, errors);
    assert Elements(path + [u]) == Elements(path) + {u};
    hide BranchesOk, FromBranches;
  }

  lemma Finishing(branch: map<string, seq<string>>, settled: set<string>, path: seq<string>, u: string,
                  older: map<string, seq<string>>, before: set<string>)
    requires AtPath(branch, settled, path + [u]) && Extends(branch, older[u := path + [u]])
    requires AtPath(older, before, path) && u !in path && u !in before
    ensures AtPath(branch, settled + {u}, path) && Extends(branch, older)
  {
    assert Elements(path + [u]) == Elements(path) + {u};
    forall x | x in older ensures x in branch && branch[x] == older[x] {
      assert x in older[u := path + [u]];
    }
  }

  /** The closure variables of the cycle check. Each error is reported as its cycle. */
  class CycleCheck {
    const graph: Graph
    var settled: set<string>
    var reported: set<string>
    var errors: seq<seq<string>>
    ghost var order: seq<string>
    ghost var branch: map<string, seq<string>>

    constructor (graph: Graph)
      requires ClosedGraph(graph)
      ensures Valid() && this.graph == graph && settled == {} && errors == [] && branch == map[]
    {
      this.graph := graph;
      settled, reported, errors, order, branch := {}, {}, [], [], map[];
    }

    ghost predicate Valid()
      reads this
    {
      && ClosedGraph(graph) && ErrorsOk(graph, errors, reported) && (errors == [] ==> OrderOk(graph, order, settled))
      && BranchesOk(branch) && FromBranches(branch, errors)
    }

    method Report(cycle: seq<string>)
      requires ErrorsOk(graph, errors, reported) && IsCycle(graph, cycle)
      requires FromBranches(branch, errors) && FromBranch(branch, cycle)
      modifies this`reported, this`errors
      ensures ErrorsOk(graph, errors, reported) && FromBranches(branch, errors) && errors != []
    {
      hide FromBranch, IsCycle, CycleKey;
      var key := CycleKey(cycle);
      if key !in reported {
        reported := reported + {key};
        errors := errors + [cycle];
      }
    }

    /** Visits a unit below a path: afterwards either a cycle has been reported or the unit
        and everything below it has settled in dependency order. */
    method Visit(unitId: string, path: seq<string>)
      requires Valid() && IsWalk(graph, path + [unitId]) && AtPath(branch, settled, path)
      modifies this
      ensures Valid() && old(settled) <= settled && AtPath(branch, settled, path) && Extends(branch, old(branch))
      ensures old(errors) != [] ==> errors != []
      ensures errors == [] ==> unitId in settled
      decreases |graph.Keys - Elements(path)|, 0
    {
      hide ErrorsOk, IsCycle, OrderOk, BranchesOk, FromBranches, FromBranch, AtPath, Extends;
      ExtendsItself(branch);
      if unitId in settled { return; }
      if unitId in path {
        TailIsCycle(graph, path, unitId);
        ClosingIsFromBranch(branch, settled, path, unitId);
        Report(path[IndexOf(path, unitId)..] + [unitId]);
        return;
      }
      FewerLeft(graph, path, unitId);
      Entering(branch, settled, path, unitId, errors);
      branch := branch[unitId := path + [unitId]];
      VisitDependencies(unitId, path);
      Finishing(branch, settled, path, unitId, old(branch), old(settled));
      Settle(unitId);
    }

    method Settle(unitId: string)
      requires Valid() && unitId in graph && (errors == [] ==> forall d :: d in graph[unitId] ==> d in settled)
      modifies this`order, this`settled
      ensures Valid() && settled == old(settled) + {unitId}
    {
      hide ErrorsOk, OrderOk, BranchesOk, FromBranches;
      if errors == [] { OrderSettles(graph, order, settled, unitId); }
      if unitId !in settled { order := order + [unitId]; }
      settled := settled + {unitId};
    }

    lemma Parts()
      requires Valid()
      ensures ErrorsOk(graph, errors, reported) && (errors == [] ==> OrderOk(graph, order, settled))
      ensures BranchesOk(branch) && FromBranches(branch, errors)
    { hide ErrorsOk, OrderOk, BranchesOk, FromBranches; }

    /** The loop over the dependencies of a unit just entered. */
    method VisitDependencies(unitId: string, path: seq<string>)
      requires Valid() && IsWalk(graph, path + [unitId]) && AtPath(branch, settled, path + [unitId])
      requires unitId in graph
      modifies this
      ensures Valid() && old(settled) <= settled
      ensures AtPath(branch, settled, path + [unitId]) && Extends(branch, old(branch))
      ensures old(errors) != [] ==> errors != []
      ensures errors == [] ==> forall d :: d in graph[unitId] ==> d in settled
      decreases |graph.Keys - Elements(path + [unitId])|, 1
    {
      hide *;
      ExtendsItself(branch);
      var dependencies := graph[unitId];
      for k := 0 to |dependencies|
        invariant Valid() && old(settled) <= settled
        invariant AtPath(branch, settled, path + [unitId]) && Extends(branch, old(branch))
        invariant old(errors) != [] ==> errors != []
        invariant errors == [] ==> forall j :: 0 <= j < k ==> dependencies[j] in settled
      {
        ClosedWalkExtends(graph, path, unitId, dependencies[k]);
        ghost var before := branch;
        Visit(dependencies[k], path + [unitId]);
        ExtendsOn(branch, before, old(branch));
      }
    }

    lemma ClosedWalkExtends(g: Graph, path: seq<string>, u: string, d: string)
      requires Valid() && g == graph && IsWalk(g, path + [u]) && u in g && d in g[u]
      ensures IsWalk(g, path + [u] + [d])
    {
      WalkExtends(g, path, u, d);
    }
  }

  lemma SmallerSet<T>(a: set<T>, b: set<T>)
    requires a < b
    ensures |a| < |b|
  {
    var x :| x in b && x !in a;
    assert a <= b - {x};
    SubsetSize(a, b - {x});
  }

  lemma SubsetSize<T>(a: set<T>, b: set<T>)
    requires a <= b
    ensures |a| <= |b|
  {
    if a != {} {
      var x :| x in a;
      SubsetSize(a - {x}, b - {x});
    }
  }

  method DependenciesOf(catalog: seq<Descriptor>) returns (graph: Graph)
    ensures graph == GraphOf(catalog, |catalog|) && graph.Keys == Ids(catalog) && ClosedGraph(graph)
  {
    graph := map[];
    for k := 0 to |catalog|
      invariant graph == GraphOf(catalog, k)
    {
      graph := graph[catalog[k].unitId := Known(catalog[k].dependsOn, Ids(catalog))];
    }
    assert catalog[..|catalog|] == catalog;
  }

  /** validateCoordinatorUnitDependencyAcyclic: sound and complete on every catalog, and no
      set of units is reported twice. */
  method ValidateAcyclic(catalog: seq<Descriptor>) returns (errors: seq<seq<string>>)
    ensures errors == [] <==> Acyclic(GraphOf(catalog, |catalog|))
    ensures forall k :: 0 <= k < |errors| ==> IsCycle(GraphOf(catalog, |catalog|), errors[k])
    ensures forall j, k :: 0 <= j < k < |errors| ==> Elements(errors[j]) != Elements(errors[k])
  {
    var graph := DependenciesOf(catalog);
    var check := VisitAll(catalog, graph);
    hide *;
    errors := check.errors;
    check.Parts();
    Verdict(graph, errors, check.reported, check.order, check.settled);
    UnitsReportedOnce(graph, errors, check.reported, check.branch);
  }

  method VisitAll(catalog: seq<Descriptor>, graph: Graph) returns (check: CycleCheck)
    requires ClosedGraph(graph) && graph.Keys == Ids(catalog)
    ensures check.Valid() && check.graph == graph
    ensures check.errors == [] ==> forall u :: u in graph ==> u in check.settled
  {
    check := new CycleCheck(graph);
    assert AtPath(check.branch, check.settled, []) by { assert Elements([]) == {}; }
    hide AtPath, Extends, IsWalk, CycleCheck.Valid, ClosedGraph;
    for k := 0 to |catalog|
      invariant fresh(check) && check.Valid() && check.graph == graph && AtPath(check.branch, check.settled, [])
      invariant check.errors == [] ==> forall j :: 0 <= j < k ==> catalog[j].unitId in check.settled
    {
      OneUnitWalk(graph, catalog[k].unitId);
      check.Visit(catalog[k].unitId, []);
    }
  }

  lemma OneUnitWalk(g: Graph, u: string)
    requires u in g
    ensures IsWalk(g, [] + [u])
  {
    assert [] + [u] == [u];
  }

  lemma UnitsReportedOnce(g: Graph, errors: seq<seq<string>>, reported: set<string>, branch: map<string, seq<string>>)
    requires ErrorsOk(g, errors, reported) && BranchesOk(branch) && FromBranches(branch, errors)
    ensures forall j, k :: 0 <= j < k < |errors| ==> Elements(errors[j]) != Elements(errors[k])
  {
    hide IsCycle, BranchesOk, CycleKey;
    forall j, k | 0 <= j < k < |errors| ensures Elements(errors[j]) != Elements(errors[k]) {
      if Elements(errors[j]) == Elements(errors[k]) { SameUnitsSameCycle(branch, errors[j], errors[k]); }
    }
  }

  lemma Verdict(g: Graph, errors: seq<seq<string>>, reported: set<string>, order: seq<string>, settled: set<string>)
    requires ErrorsOk(g, errors, reported)
        && (errors == [] ==> OrderOk(g, order, settled) && forall u :: u in g ==> u in settled)
    ensures errors == [] <==> Acyclic(g)
    ensures forall k :: 0 <= k < |errors| ==> IsCycle(g, errors[k])
  {
    hide IsCycle, CycleKey, Topological;
    if errors == [] { OrderedIsAcyclic(g, order); } else { assert IsCycle(g, errors[0]); }
  }

  // --------------------------------------------- distinct ids and lookups

  predicate DistinctIds(catalog: seq<Descriptor>) {
    forall j, k :: 0 <= j < k < |catalog| ==> catalog[j].unitId != catalog[k].unitId
  }

  /** catalog.find by unitId. */
  function DescriptorOf(catalog: seq<Descriptor>, unitId: string): (r: Option<Descriptor>)
    ensures r.Some? <==> unitId in Ids(catalog)
    ensures r.Some? ==> r.value in catalog && r.value.unitId == unitId
  {
    if catalog == [] then None
    else if catalog[0].unitId == unitId then assert catalog[0].unitId in Ids(catalog); Some(catalog[0])
    else
      var r := DescriptorOf(catalog[1..], unitId);
      assert Ids(catalog) == {catalog[0].unitId} + Ids(catalog[1..]) by {
        assert forall k :: 0 <= k < |catalog| - 1 ==> catalog[1..][k] == catalog[k + 1];
      }
      r
  }

  /** With distinct ids the checked graph has exactly the declared dependencies of each unit. */
  lemma {:induction false} GraphIsDeclared(catalog: seq<Descriptor>, n: nat, k: nat)
    requires DistinctIds(catalog) && k < n <= |catalog|
    ensures catalog[k].unitId in GraphOf(catalog, n)
    ensures GraphOf(catalog, n)[catalog[k].unitId] == Known(catalog[k].dependsOn, Ids(catalog))
  {
    if k < n - 1 { GraphIsDeclared(catalog, n - 1, k); }
  }
}
