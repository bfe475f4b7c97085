/** Whether a worker unit can be used, and why not: the recursive evaluator over the catalog. */
module UnitAvailability {
  import opened Prelude
  import opened UnitCatalog

  const TRANSPORT_UNIT_ID := "keymaster.coordinator.transport"

  datatype Code = DependencyNotReady | StorageRootUnavailable | OwnerSessionUnavailable | UnitNotReady | UnitUnknown

  datatype Reason = Reason(code: Code, dependencyId: Option<string>)

  /** The facts an evaluation reads. */
  datatype Context = Context(ready: set<string>, storageReady: bool, ownerAvailable: bool, catalog: seq<Descriptor>)

  datatype Layer = Construction | Startup | Availability

  datatype Verdict = Verdict(unitId: string, ready: bool, dependsOn: seq<string>, reasons: seq<Reason>)

  function ScopeReasons(unit: Descriptor, ctx: Context): seq<Reason> {
    (if unit.scopeKind == StorageScope && !ctx.storageReady then [Reason(StorageRootUnavailable, None)] else [])
    + (if (unit.scopeKind == OwnerSession || unit.scopeKind == ConnectSession) && !ctx.ownerAvailable
       then [Reason(OwnerSessionUnavailable, None)] else [])
  }

  /** The reasons of one dependency: `child` explains a dependency that is not ready. */
  function Explained(dependency: string, child: seq<Reason>): seq<Reason> {
    (if |child| == 1 && child[0].code == UnitNotReady then [] else [Reason(DependencyNotReady, Some(dependency))])
      + child
  }

  function DependencyReasons(deps: seq<string>, ctx: Context, visiting: set<string>): seq<Reason>
    decreases |Ids(ctx.catalog) - visiting|, 0, |deps|
  {
    if deps == [] then [] else OneDependency(deps[0], ctx, visiting) + DependencyReasons(deps[1..], ctx, visiting)
  }

  function OneDependency(dependency: string, ctx: Context, visiting: set<string>): seq<Reason>
    decreases |Ids(ctx.catalog) - visiting|, 0, 0
  {
    if DescriptorOf(ctx.catalog, dependency).None? then [Reason(UnitUnknown, Some(dependency))]
    else if dependency in visiting then [Reason(DependencyNotReady, Some(dependency))]
    else if dependency in ctx.ready then []
    else
      FewerToVisit(ctx, visiting, dependency);
      Explained(dependency, Evaluate(dependency, ctx, Availability, visiting + {dependency}).reasons)
  }

  lemma FewerToVisit(ctx: Context, visiting: set<string>, dependency: string)
    requires dependency in Ids(ctx.catalog) && dependency !in visiting
    ensures |Ids(ctx.catalog) - (visiting + {dependency})| < |Ids(ctx.catalog) - visiting|
  {
    SmallerSet(Ids(ctx.catalog) - (visiting + {dependency}), Ids(ctx.catalog) - visiting);
  }

  /** The evaluator: terminates on every catalog, because each descent visits one more catalogued unit. */
  function Evaluate(unitId: string, ctx: Context, layer: Layer, visiting: set<string>): Verdict
    decreases |Ids(ctx.catalog) - visiting|, 1, 0
  {
    match DescriptorOf(ctx.catalog, unitId)
    case None =>
      if unitId == TRANSPORT_UNIT_ID then Verdict(unitId, true, [], [])
      else Verdict(unitId, false, [], [Reason(UnitUnknown, Some(unitId))])
    case Some(unit) =>
      var reasons := ScopeReasons(unit, ctx)
        + (if layer == Construction then [] else DependencyReasons(unit.dependsOn, ctx, visiting))
        + (if layer == Availability && unitId !in ctx.ready then [Reason(UnitNotReady, Some(unitId))] else []);
      Verdict(unitId, reasons == [], unit.dependsOn, reasons)
  }

  /** The public evaluations start with the unit itself as visited. */
  function EvaluateUnit(unitId: string, ctx: Context, layer: Layer): Verdict {
    Evaluate(unitId, ctx, layer, {unitId})
  }

  /** What the loop body pushes for one dependency. */
  method ExplainDependency(dependency: string, ctx: Context, visiting: set<string>) returns (added: seq<Reason>)
    ensures added == OneDependency(dependency, ctx, visiting)
    decreases |Ids(ctx.catalog) - visiting|, 0
  {
    if DescriptorOf(ctx.catalog, dependency).None? { return [Reason(UnitUnknown, Some(dependency))]; }
    if dependency in visiting { return [Reason(DependencyNotReady, Some(dependency))]; }
    if dependency in ctx.ready { return []; }
    FewerToVisit(ctx, visiting, dependency);
    var child := EvaluateInPlace(dependency, ctx, Availability, visiting + {dependency});
    var explainsOnlyItself := |child.reasons| == 1 && child.reasons[0].code == UnitNotReady;
    added := if explainsOnlyItself then [] else [Reason(DependencyNotReady, Some(dependency))];
    added := added + child.reasons;
  }

  lemma DependencyReasonsSplit(deps: seq<string>, k: nat, ctx: Context, visiting: set<string>)
    requires k < |deps|
    ensures DependencyReasons(deps[k..], ctx, visiting) == OneDependency(deps[k], ctx, visiting)
        + DependencyReasons(deps[k + 1..], ctx, visiting)
  {
    assert deps[k..][0] == deps[k] && deps[k..][1..] == deps[k + 1..];
  }

  /** The evaluator as the source writes it: reasons pushed in a loop over the dependencies. */
  method EvaluateInPlace(unitId: string, ctx: Context, layer: Layer, visiting: set<string>) returns (verdict: Verdict)
    ensures verdict == Evaluate(unitId, ctx, layer, visiting)
    decreases |Ids(ctx.catalog) - visiting|, 1
  {
    hide OneDependency;
    var found := DescriptorOf(ctx.catalog, unitId);
    if found.None? {
      if unitId == TRANSPORT_UNIT_ID { return Verdict(unitId, true, [], []); }
      return Verdict(unitId, false, [], [Reason(UnitUnknown, Some(unitId))]);
    }
    var unit := found.value;
    var reasons: seq<Reason> := [];
    if unit.scopeKind == StorageScope && !ctx.storageReady {
      reasons := reasons + [Reason(StorageRootUnavailable, None)];
    }
    if (unit.scopeKind == OwnerSession || unit.scopeKind == ConnectSession) && !ctx.ownerAvailable {
      reasons := reasons + [Reason(OwnerSessionUnavailable, None)];
    }
    assert reasons == ScopeReasons(unit, ctx);
    var deps := if layer == Construction then [] else unit.dependsOn;
    ghost var all := ScopeReasons(unit, ctx) + DependencyReasons(deps, ctx, visiting);
    for k := 0 to |deps|
      invariant reasons + DependencyReasons(deps[k..], ctx, visiting) == all
    {
      hide *;
      var added := ExplainDependency(deps[k], ctx, visiting);
      DependencyReasonsSplit(deps, k, ctx, visiting);
      reasons := reasons + added;
    }
    assert reasons == all;
    if layer == Availability && unitId !in ctx.ready {
      reasons := reasons + [Reason(UnitNotReady, Some(unitId))];
    }
    verdict := Verdict(unitId, reasons == [], unit.dependsOn, reasons);
  }

  // ------------------------------------------------ the one-level refinement

  predicate ScopeOk(unit: Descriptor, ctx: Context) {
    && (unit.scopeKind == StorageScope ==> ctx.storageReady)
    && (unit.scopeKind == OwnerSession || unit.scopeKind == ConnectSession ==> ctx.ownerAvailable)
  }

  /** The flat test: scope, direct dependencies and self, one level deep. */
  predicate FlatReady(unitId: string, ctx: Context, layer: Layer, visiting: set<string>) {
    match DescriptorOf(ctx.catalog, unitId)
    case None => unitId == TRANSPORT_UNIT_ID
    case Some(unit) =>
      && ScopeOk(unit, ctx)
      && (layer == Construction || forall d :: d in unit.dependsOn ==>
        d in Ids(ctx.catalog) && d !in visiting && d in ctx.ready)
      && (layer == Availability ==> unitId in ctx.ready)
  }

  lemma {:induction false} NoReasonsIffDependenciesReady(deps: seq<string>, ctx: Context, visiting: set<string>)
    ensures DependencyReasons(deps, ctx, visiting) == [] <==>
            forall d :: d in deps ==> d in Ids(ctx.catalog) && d !in visiting && d in ctx.ready
    decreases |deps|
  {
    if deps != [] {
      NoReasonsIffDependenciesReady(deps[1..], ctx, visiting);
      assert deps == [deps[0]] + deps[1..];
      if DescriptorOf(ctx.catalog, deps[0]).Some? && deps[0] !in visiting && deps[0] !in ctx.ready {
        FewerToVisit(ctx, visiting, deps[0]);
        var child := Evaluate(deps[0], ctx, Availability, visiting + {deps[0]}).reasons;
        assert child[|child| - 1] == Reason(UnitNotReady, Some(deps[0]));
      }
    }
  }

  /** On any catalog, even a cyclic one, the recursive evaluation is ready exactly when the flat test passes. */
  lemma ReadyIffFlat(unitId: string, ctx: Context, layer: Layer, visiting: set<string>)
    ensures Evaluate(unitId, ctx, layer, visiting).ready <==> FlatReady(unitId, ctx, layer, visiting)
    ensures Evaluate(unitId, ctx, layer, visiting).ready <==> Evaluate(unitId, ctx, layer, visiting).reasons == []
  {
    match DescriptorOf(ctx.catalog, unitId)
    case None =>
    case Some(unit) => NoReasonsIffDependenciesReady(unit.dependsOn, ctx, visiting);
  }

  /** Each layer only appends reasons to the one below it. */
  lemma LayersExtend(unitId: string, ctx: Context)
    ensures EvaluateUnit(unitId, ctx, Construction).reasons <= EvaluateUnit(unitId, ctx, Startup).reasons
    ensures EvaluateUnit(unitId, ctx, Startup).reasons <= EvaluateUnit(unitId, ctx, Availability).reasons
  {
  }

  /** More true facts never turn ready into failed. */
  lemma MoreFactsKeepReady(unitId: string, ctx: Context, more: Context, layer: Layer)
    requires more.catalog == ctx.catalog && ctx.ready <= more.ready
    requires (ctx.storageReady ==> more.storageReady) && (ctx.ownerAvailable ==> more.ownerAvailable)
    ensures EvaluateUnit(unitId, ctx, layer).ready ==> EvaluateUnit(unitId, more, layer).ready
  {
    ReadyIffFlat(unitId, ctx, layer, {unitId});
    ReadyIffFlat(unitId, more, layer, {unitId});
  }

  // --------------------------------------- explanations are reachability

  /** A dependency path on which every node after the first is catalogued, not ready and not avoided. */
  ghost predicate BlockedPath(ctx: Context, avoid: set<string>, p: seq<string>) {
    && p != []
    && (forall k :: 0 < k < |p| ==> p[k] in Ids(ctx.catalog) && p[k] !in ctx.ready && p[k] !in avoid)
    && (forall k :: 0 <= k < |p| - 1 ==>
          DescriptorOf(ctx.catalog, p[k]).Some? && p[k + 1] in DescriptorOf(ctx.catalog, p[k]).value.dependsOn)
  }

  ghost predicate Blocks(ctx: Context, avoid: set<string>, u: string, x: string) {
    exists p :: BlockedPath(ctx, avoid, p) && |p| > 1 && p[0] == u && p[|p| - 1] == x
  }

  predicate Names(reasons: seq<Reason>, x: string) { Reason(UnitNotReady, Some(x)) in reasons }

  /** Among the reasons of a list of dependencies, x is named by one of them. */
  lemma {:induction false} NamedByOne(deps: seq<string>, ctx: Context, visiting: set<string>, x: string)
    ensures Names(DependencyReasons(deps, ctx, visiting), x) <==>
        exists d :: d in deps && Names(OneDependency(d, ctx, visiting), x)
    decreases |deps|
  {
    if deps != [] {
      var first, rest := OneDependency(deps[0], ctx, visiting), DependencyReasons(deps[1..], ctx, visiting);
      NamedByOne(deps[1..], ctx, visiting, x);
      assert DependencyReasons(deps, ctx, visiting) == first + rest;
      assert Names(first + rest, x) <==> Names(first, x) || Names(rest, x);
      if Names(first, x) {
        assert deps[0] in deps && Names(OneDependency(deps[0], ctx, visiting), x);
      } else if Names(rest, x) {
        var d :| d in deps[1..] && Names(OneDependency(d, ctx, visiting), x);
        assert d in deps && Names(OneDependency(d, ctx, visiting), x);
      } else {
        forall d | d in deps ensures !Names(OneDependency(d, ctx, visiting), x) {
          assert d == deps[0] || d in deps[1..];
        }
      }
    }
  }

  lemma NamedByDependency(d: string, ctx: Context, visiting: set<string>, x: string)
    ensures Names(OneDependency(d, ctx, visiting), x) <==>
            && d in Ids(ctx.catalog) && d !in visiting && d !in ctx.ready
            && (x == d || Names(DependencyReasons(DescriptorOf(ctx.catalog, d).value.dependsOn, ctx, visiting + {d}),
              x))
  {
  }

  /** Named by the dependencies of u: reachable from u by a blocked path that avoids the visited units. */
  lemma {:induction false} NamedIffBlocked(u: string, ctx: Context, visiting: set<string>, x: string)
    requires DescriptorOf(ctx.catalog, u).Some?
    ensures Names(DependencyReasons(DescriptorOf(ctx.catalog, u).value.dependsOn, ctx, visiting), x) <==>
        Blocks(ctx, visiting, u, x)
    decreases |Ids(ctx.catalog) - visiting|
  {
    var deps := DescriptorOf(ctx.catalog, u).value.dependsOn;
    NamedByOne(deps, ctx, visiting, x);
    forall d | d in deps ensures Names(OneDependency(d, ctx, visiting), x) ==> Blocks(ctx, visiting, u, x) {
      NamedByDependency(d, ctx, visiting, x);
      if Names(OneDependency(d, ctx, visiting), x) {
        FewerToVisit(ctx, visiting, d);
        NamedIffBlocked(d, ctx, visiting + {d}, x);
        StepThenBlocks(ctx, visiting, u, d, x);
      }
    }
    if Blocks(ctx, visiting, u, x) {
      var d := FirstStep(ctx, visiting, u, x);
      NamedByDependency(d, ctx, visiting, x);
      FewerToVisit(ctx, visiting, d);
      NamedIffBlocked(d, ctx, visiting + {d}, x);
    }
  }

  lemma StepThenBlocks(ctx: Context, avoid: set<string>, u: string, d: string, x: string)
    requires DescriptorOf(ctx.catalog, u).Some? && d in DescriptorOf(ctx.catalog, u).value.dependsOn
    requires d in Ids(ctx.catalog) && d !in avoid && d !in ctx.ready
    requires x == d || Blocks(ctx, avoid + {d}, d, x)
    ensures Blocks(ctx, avoid, u, x)
  {
    if x == d {
      assert BlockedPath(ctx, avoid, [u, d]);
    } else {
      var p :| BlockedPath(ctx, avoid + {d}, p) && |p| > 1 && p[0] == d && p[|p| - 1] == x;
      var q := [u] + p;
      assert forall k :: 0 < k < |q| ==> q[k] == p[k - 1];
      assert BlockedPath(ctx, avoid, q);
    }
  }

  function LastIndex(p: seq<string>, d: string): (k: nat)
    requires d in p
    ensures k < |p| && p[k] == d && forall j :: k < j < |p| ==> p[j] != d
  {
    if p[|p| - 1] == d then |p| - 1 else LastIndex(p[..|p| - 1], d)
  }

  lemma CutPath(ctx: Context, avoid: set<string>, p: seq<string>, k: nat)
    requires BlockedPath(ctx, avoid, p) && k < |p| && forall j :: k < j < |p| ==> p[j] != p[k]
    ensures BlockedPath(ctx, avoid + {p[k]}, p[k..])
  {
    hide DescriptorOf, Ids;
    var q := p[k..];
    assert forall j :: 0 <= j < |q| ==> q[j] == p[k + j];
  }

  /** The first step of a blocked path; the rest of the path may be cut so as to avoid that step. */
  lemma FirstStep(ctx: Context, avoid: set<string>, u: string, x: string) returns (d: string)
    requires Blocks(ctx, avoid, u, x)
    ensures DescriptorOf(ctx.catalog, u).Some? && d in DescriptorOf(ctx.catalog, u).value.dependsOn
    ensures d in Ids(ctx.catalog) && d !in avoid && d !in ctx.ready
    ensures x == d || Blocks(ctx, avoid + {d}, d, x)
  {
    var p :| BlockedPath(ctx, avoid, p) && |p| > 1 && p[0] == u && p[|p| - 1] == x;
    d := p[1];
    if x != d {
      var k := LastIndex(p, d);
      var q := p[k..];
      CutPath(ctx, avoid, p, k);
    }
  }

  /** The units that a startup evaluation of a catalogued unit names as not ready are exactly those
      reachable from it by a non-empty dependency path whose later nodes are all catalogued, not
      ready, and not the unit itself. Holds on every catalog. */
  lemma StartupNamesReachable(u: string, ctx: Context, x: string)
    requires u in Ids(ctx.catalog)
    ensures Names(EvaluateUnit(u, ctx, Startup).reasons, x) <==> Blocks(ctx, {u}, u, x)
  {
    NamedIffBlocked(u, ctx, {u}, x);
  }

  // ------------------------------------------------ catalogs without a cycle

  /** The dependency graph that the evaluator walks: the first descriptor of each id. */
  function DeclaredGraph(catalog: seq<Descriptor>): (g: Graph)
    ensures g.Keys == Ids(catalog)
  {
    map id | id in Ids(catalog) :: Known(DescriptorOf(catalog, id).value.dependsOn, Ids(catalog))
  }

  /** On a catalog with distinct ids this is the graph that the cycle check searches. */
  lemma CheckedGraphIsDeclared(catalog: seq<Descriptor>)
    requires DistinctIds(catalog)
    ensures GraphOf(catalog, |catalog|) == DeclaredGraph(catalog)
  {
    assert catalog[..|catalog|] == catalog;
    forall id | id in Ids(catalog) ensures GraphOf(catalog, |catalog|)[id] == DeclaredGraph(catalog)[id] {
      var d := DescriptorOf(catalog, id).value;
      var k :| 0 <= k < |catalog| && catalog[k] == d;
      GraphIsDeclared(catalog, |catalog|, k);
    }
  }

  /** Whether the guard against a bad catalog stops the descent somewhere below a unit. */
  ghost predicate GuardFires(u: string, ctx: Context, visiting: set<string>)
    requires u in Ids(ctx.catalog)
    decreases |Ids(ctx.catalog) - visiting|, 1
  {
    exists d :: d in DescriptorOf(ctx.catalog, u).value.dependsOn && d in Ids(ctx.catalog)
      && GuardFiresAt(d, ctx, visiting)
  }

  ghost predicate GuardFiresAt(d: string, ctx: Context, visiting: set<string>)
    requires d in Ids(ctx.catalog)
    decreases |Ids(ctx.catalog) - visiting|, 0
  {
    if d in visiting then true
    else FewerToVisit(ctx, visiting, d); d !in ctx.ready && GuardFires(d, ctx, visiting + {d})
  }

  ghost predicate Leads(g: Graph, v: string, u: string) {
    exists p :: IsWalk(g, p) && p[0] == v && p[|p| - 1] == u
  }

  /** Every visited unit leads to the current one, so without a cycle the guard has nothing to catch. */
  lemma {:induction false} GuardNeverFires(u: string, ctx: Context, visiting: set<string>)
    requires u in Ids(ctx.catalog) && Acyclic(DeclaredGraph(ctx.catalog))
    requires forall v :: v in visiting ==> Leads(DeclaredGraph(ctx.catalog), v, u)
    ensures !GuardFires(u, ctx, visiting)
    decreases |Ids(ctx.catalog) - visiting|
  {
    var g := DeclaredGraph(ctx.catalog);
    forall d | d in DescriptorOf(ctx.catalog, u).value.dependsOn && d in Ids(ctx.catalog)
      ensures !GuardFiresAt(d, ctx, visiting)
    {
      assert d in g[u];
      LeadsOn(g, visiting, u, d);
      NoWayBack(g, u, d);
      hide DeclaredGraph, Leads, Acyclic, DescriptorOf, Ids;
      FewerToVisit(ctx, visiting, d);
      GuardNeverFires(d, ctx, visiting + {d});
    }
  }

  lemma NoWayBack(g: Graph, u: string, d: string)
    requires Acyclic(g) && u in g && d in g && d in g[u]
    ensures !Leads(g, d, u)
  {
    forall p | IsWalk(g, p) && p[0] == d ensures p[|p| - 1] != u {
      assert !IsCycle(g, p + [d]);
    }
  }

  lemma LeadsOn(g: Graph, visiting: set<string>, u: string, d: string)
    requires u in g && d in g && d in g[u] && forall v :: v in visiting ==> Leads(g, v, u)
    ensures forall v :: v in visiting + {d} ==> Leads(g, v, d)
  {
    forall v | v in visiting ensures Leads(g, v, d) {
      var p :| IsWalk(g, p) && p[0] == v && p[|p| - 1] == u;
      assert IsWalk(g, p + [d]);
    }
    assert IsWalk(g, [d]);
  }

  lemma BlockedPathIsWalk(ctx: Context, p: seq<string>)
    requires BlockedPath(ctx, {}, p) && p[0] in Ids(ctx.catalog)
    ensures IsWalk(DeclaredGraph(ctx.catalog), p)
  {
  }

  /** Without a cycle a blocked path never returns to where it began. */
  lemma NeverReturns(ctx: Context, p: seq<string>)
    requires Acyclic(DeclaredGraph(ctx.catalog)) && BlockedPath(ctx, {}, p) && p[0] in Ids(ctx.catalog)
    ensures BlockedPath(ctx, {p[0]}, p)
  {
    BlockedPathIsWalk(ctx, p);
    forall k | 0 < k < |p| ensures p[k] != p[0] {
      assert p[k] == p[0] ==> IsCycle(DeclaredGraph(ctx.catalog), p[..k + 1]);
    }
    hide DeclaredGraph;
  }

  /** On a catalog that the cycle check accepts: the guard never fires, and the units named by a
      startup evaluation are exactly those reachable by a non-empty dependency path whose nodes
      after the unit are all catalogued and not ready. */
  lemma AcceptedCatalogExplains(u: string, ctx: Context, x: string)
    requires DistinctIds(ctx.catalog) && Acyclic(GraphOf(ctx.catalog, |ctx.catalog|)) && u in Ids(ctx.catalog)
    ensures !GuardFires(u, ctx, {u})
    ensures Names(EvaluateUnit(u, ctx, Startup).reasons, x) <==> Blocks(ctx, {}, u, x)
  {
    hide BlockedPath, GuardFires, Acyclic, DescriptorOf;
    CheckedGraphIsDeclared(ctx.catalog);
    assert IsWalk(DeclaredGraph(ctx.catalog), [u]);
    GuardNeverFires(u, ctx, {u});
    StartupNamesReachable(u, ctx, x);
    hide DeclaredGraph, GraphOf, Names;
    if Blocks(ctx, {}, u, x) {
      var p :| BlockedPath(ctx, {}, p) && |p| > 1 && p[0] == u && p[|p| - 1] == x;
      NeverReturns(ctx, p);
    }
    if Blocks(ctx, {u}, u, x) {
      var p :| BlockedPath(ctx, {u}, p) && |p| > 1 && p[0] == u && p[|p| - 1] == x;
      AvoidsLess(ctx, {u}, p);
    }
  }

  lemma AvoidsLess(ctx: Context, avoid: set<string>, p: seq<string>)
    requires BlockedPath(ctx, avoid, p)
    ensures BlockedPath(ctx, {}, p)
  {
  }

  // ---------------------------------------------- the text for the framework

  function CodeText(c: Code): (t: string)
    ensures t != ""
  {
    match c
    case DependencyNotReady => "dependency-not-ready"
    case StorageRootUnavailable => "storage-root-unavailable"
    case OwnerSessionUnavailable => "owner-session-unavailable"
    case UnitNotReady => "unit-not-ready"
    case UnitUnknown => "unit-unknown"
  }

  function ReasonText(r: Reason): (t: string)
    ensures t != ""
  {
    if r.dependencyId.None? then CodeText(r.code) else CodeText(r.code) + ":" + r.dependencyId.value
  }

  function ReasonsText(rs: seq<Reason>): (t: string)
    ensures rs != [] ==> t != ""
  {
    if rs == [] then "" else if |rs| == 1 then ReasonText(rs[0]) else ReasonText(rs[0]) + "+" + ReasonsText(rs[1..])
  }

  /** describeUnitUnavailableForFramework. */
  function Describe(v: Verdict): Option<string> {
    if v.ready then None
    else
      var text := ReasonsText(v.reasons);
      Some(if text != "" then text else "unit-unavailable")
  }

  /** The framework is told nothing exactly when the flat test passes, and otherwise a
      non-empty text that lists all reasons: the fallback text is never needed. */
  lemma FrameworkTextMeansUnavailable(u: string, ctx: Context, layer: Layer)
    ensures var d := Describe(EvaluateUnit(u, ctx, layer));
            && (d.None? <==> FlatReady(u, ctx, layer, {u}))
            && (d.Some? ==> d.value != "" && d.value == ReasonsText(EvaluateUnit(u, ctx, layer).reasons))
  {
    ReadyIffFlat(u, ctx, layer, {u});
  }
}
