/** What each reason of an evaluation says: which missing fact stands behind it, and where. */
module UnitExplanations {
  import opened Prelude
  import opened UnitCatalog
  import opened UnitAvailability

  function Dependencies(ctx: Context, u: string): seq<string>
    requires u in Ids(ctx.catalog)
  {
    DescriptorOf(ctx.catalog, u).value.dependsOn
  }

  /** The fact that is missing at the unit itself: its scope, or a declaration that it depends on. */
  predicate Missing(ctx: Context, x: string, r: Reason) {
    && x in Ids(ctx.catalog)
    && var unit := DescriptorOf(ctx.catalog, x).value;
       match r.code
       case StorageRootUnavailable => r.dependencyId == None && unit.scopeKind == StorageScope && !ctx.storageReady
       case OwnerSessionUnavailable =>
         r.dependencyId == None && unit.scopeKind in {OwnerSession, ConnectSession} && !ctx.ownerAvailable
       case UnitUnknown =>
         r.dependencyId.Some? && r.dependencyId.value in unit.dependsOn && r.dependencyId.value !in Ids(ctx.catalog)
       case _ => false
  }

  predicate Plain(r: Reason) { r.code in {StorageRootUnavailable, OwnerSessionUnavailable, UnitUnknown} }

  predicate AtScope(ctx: Context, x: string, r: Reason) { r.code != UnitUnknown && Missing(ctx, x, r) }

  /** The unit itself, or one that a path of units which are not ready leads to. */
  ghost predicate Behind(ctx: Context, avoid: set<string>, u: string, x: string) {
    x == u || Blocks(ctx, avoid, u, x)
  }

  ghost predicate MissingBehind(ctx: Context, avoid: set<string>, u: string, r: Reason) {
    exists x :: Behind(ctx, avoid, u, x) && Missing(ctx, x, r)
  }

  // ------------------------------------------------------------ one level down

  lemma {:induction false} GivenByOne(deps: seq<string>, ctx: Context, visiting: set<string>, r: Reason)
    ensures r in DependencyReasons(deps, ctx, visiting) <==>
        exists d :: d in deps && r in OneDependency(d, ctx, visiting)
    decreases |deps|
  {
    if deps != [] {
      var first, rest := OneDependency(deps[0], ctx, visiting), DependencyReasons(deps[1..], ctx, visiting);
      GivenByOne(deps[1..], ctx, visiting, r);
      assert DependencyReasons(deps, ctx, visiting) == first + rest;
      if r in first {
        assert deps[0] in deps && r in OneDependency(deps[0], ctx, visiting);
      } else if r in rest {
        var d :| d in deps[1..] && r in OneDependency(d, ctx, visiting);
        assert d in deps && r in OneDependency(d, ctx, visiting);
      } else {
        forall d | d in deps ensures r !in OneDependency(d, ctx, visiting) { assert d == deps[0] || d in deps[1..]; }
      }
    }
  }

  /** The reasons at a unit: of its scope, of its dependencies, and that it is not ready itself. */
  lemma GivenByUnit(u: string, ctx: Context, layer: Layer, visiting: set<string>, r: Reason)
    requires u in Ids(ctx.catalog)
    ensures r in Evaluate(u, ctx, layer, visiting).reasons <==>
      || (r == Reason(StorageRootUnavailable, None) && Missing(ctx, u, r))
      || (r == Reason(OwnerSessionUnavailable, None) && Missing(ctx, u, r))
      || (layer != Construction && r in DependencyReasons(Dependencies(ctx, u), ctx, visiting))
      || (layer == Availability && u !in ctx.ready && r == Reason(UnitNotReady, Some(u)))
  {
    var unit := DescriptorOf(ctx.catalog, u).value;
    assert r in ScopeReasons(unit, ctx) <==>
      || (r == Reason(StorageRootUnavailable, None) && Missing(ctx, u, r))
      || (r == Reason(OwnerSessionUnavailable, None) && Missing(ctx, u, r));
    hide ScopeReasons, DependencyReasons, Missing;
  }

  /** A scope or declaration that is missing is given for a dependency iff it is undeclared itself, or
      the reason is given at it or below it, where it is neither visited nor ready. */
  lemma GivenByDependency(d: string, ctx: Context, visiting: set<string>, r: Reason)
    requires Plain(r)
    ensures r in OneDependency(d, ctx, visiting) <==>
      if d !in Ids(ctx.catalog) then r == Reason(UnitUnknown, Some(d))
      else
        && d !in visiting && d !in ctx.ready
        && (AtScope(ctx, d, r) || r in DependencyReasons(Dependencies(ctx, d), ctx, visiting + {d}))
  {
    if d in Ids(ctx.catalog) && d !in visiting && d !in ctx.ready {
      FewerToVisit(ctx, visiting, d);
      GivenByUnit(d, ctx, Availability, visiting + {d}, r);
      if Missing(ctx, d, r) && r.code != UnitUnknown { MissingScope(ctx, d, r); }
    }
    hide DependencyReasons, Evaluate, Missing;
  }

  lemma MissingScope(ctx: Context, x: string, r: Reason)
    requires x in Ids(ctx.catalog) && Missing(ctx, x, r) && r.code != UnitUnknown
    ensures r == Reason(StorageRootUnavailable, None) || r == Reason(OwnerSessionUnavailable, None)
  { }

  // ------------------------------------------------------------ all the way down

  /** A reason about a scope or a declaration is given at a unit or through its dependencies iff that
      fact is missing at the unit or behind it. */
  lemma {:induction false} PlainIff(u: string, ctx: Context, visiting: set<string>, r: Reason)
    requires Plain(r) && u in Ids(ctx.catalog)
    ensures AtScope(ctx, u, r) || r in DependencyReasons(Dependencies(ctx, u), ctx, visiting) <==>
            MissingBehind(ctx, visiting, u, r)
    decreases |Ids(ctx.catalog) - visiting|
  {
    hide Evaluate, DependencyReasons, OneDependency, Blocks, Ids, DescriptorOf;
    var deps := Dependencies(ctx, u);
    GivenByOne(deps, ctx, visiting, r);
    if AtScope(ctx, u, r) { assert Behind(ctx, visiting, u, u); }
    forall d | d in deps && r in OneDependency(d, ctx, visiting) ensures MissingBehind(ctx, visiting, u, r) {
      GivenByDependency(d, ctx, visiting, r);
      if d !in Ids(ctx.catalog) {
        assert Behind(ctx, visiting, u, u) && Missing(ctx, u, r);
      } else {
        FewerToVisit(ctx, visiting, d);
        PlainIff(d, ctx, visiting + {d}, r);
        var x :| Behind(ctx, visiting + {d}, d, x) && Missing(ctx, x, r);
        Declared(ctx, u);
        StepThenBlocks(ctx, visiting, u, d, x);
        assert Behind(ctx, visiting, u, x);
      }
    }
    if MissingBehind(ctx, visiting, u, r) {
      var x :| Behind(ctx, visiting, u, x) && Missing(ctx, x, r);
      if x != u {
        var d := FirstStep(ctx, visiting, u, x);
        assert Behind(ctx, visiting + {d}, d, x);
        FewerToVisit(ctx, visiting, d);
        PlainIff(d, ctx, visiting + {d}, r);
        GivenByDependency(d, ctx, visiting, r);
      } else if r.code == UnitUnknown {
        GivenByDependency(r.dependencyId.value, ctx, visiting, r);
      }
    }
  }

  lemma Declared(ctx: Context, u: string)
    requires u in Ids(ctx.catalog)
    ensures DescriptorOf(ctx.catalog, u).Some? && Dependencies(ctx, u) == DescriptorOf(ctx.catalog, u).value.dependsOn
  {
  }

  /** More is wrong with a unit than that it is not ready: its scope, or a dependency. */
  predicate HasMore(ctx: Context, d: string)
    requires d in Ids(ctx.catalog)
  {
    || !ScopeOk(DescriptorOf(ctx.catalog, d).value, ctx)
    || exists e :: e in Dependencies(ctx, d) && !(e in Ids(ctx.catalog) && e in ctx.ready)
  }

  function NotReady(d: string): Reason { Reason(DependencyNotReady, Some(d)) }

  /** A unit that is not ready explains only itself iff nothing more is wrong with it. */
  lemma ExplainsItself(e: string, ctx: Context, visiting: set<string>)
    requires e in Ids(ctx.catalog) && e in visiting && e !in ctx.ready && !GuardFires(e, ctx, visiting)
    ensures var child := Evaluate(e, ctx, Availability, visiting).reasons;
            |child| >= 1 && (|child| == 1 && child[0].code == UnitNotReady <==> !HasMore(ctx, e))
  {
    var unit, deps := DescriptorOf(ctx.catalog, e).value, Dependencies(ctx, e);
    NoReasonsIffDependenciesReady(deps, ctx, visiting);
    forall f | f in deps && f in Ids(ctx.catalog) ensures f !in visiting { assert !GuardFiresAt(f, ctx, visiting); }
    assert ScopeReasons(unit, ctx) == [] <==> ScopeOk(unit, ctx);
    assert Evaluate(e, ctx, Availability, visiting).reasons
        == ScopeReasons(unit, ctx) + DependencyReasons(deps, ctx, visiting) + [Reason(UnitNotReady, Some(e))];
    hide GuardFires, DependencyReasons, ScopeReasons, ScopeOk, Evaluate, GuardFiresAt;
  }

  /** Where the guard is silent, a dependency is given as not ready at its own place iff it is not
      ready and has more to say, or it is given further down. */
  lemma NotReadyByDependency(e: string, ctx: Context, visiting: set<string>, d: string)
    requires e in Ids(ctx.catalog) ==> !GuardFiresAt(e, ctx, visiting)
    ensures NotReady(d) in OneDependency(e, ctx, visiting) <==>
            && e in Ids(ctx.catalog) && e !in visiting && e !in ctx.ready
            && ((e == d && HasMore(ctx, e))
                || NotReady(d) in DependencyReasons(Dependencies(ctx, e), ctx, visiting + {e}))
  {
    if e in Ids(ctx.catalog) && e !in visiting && e !in ctx.ready {
      FewerToVisit(ctx, visiting, e);
      hide Evaluate, DependencyReasons, HasMore, GuardFires;
      ExplainsItself(e, ctx, visiting + {e});
      GivenByUnit(e, ctx, Availability, visiting + {e}, NotReady(d));
    }
    hide DependencyReasons, Evaluate, HasMore, GuardFires;
  }

  /** A dependency is given as not ready iff a path of units that are not ready leads to it and more is
      wrong with it than that. */
  lemma {:induction false} NotReadyIff(u: string, ctx: Context, visiting: set<string>, d: string)
    requires u in Ids(ctx.catalog) && !GuardFires(u, ctx, visiting)
    ensures NotReady(d) in DependencyReasons(Dependencies(ctx, u), ctx, visiting) <==>
            Blocks(ctx, visiting, u, d) && d in Ids(ctx.catalog) && HasMore(ctx, d)
    decreases |Ids(ctx.catalog) - visiting|
  {
    var deps := Dependencies(ctx, u);
    GivenByOne(deps, ctx, visiting, NotReady(d));
    forall e | e in deps
      ensures e in Ids(ctx.catalog) ==> !GuardFiresAt(e, ctx, visiting)
      ensures e in Ids(ctx.catalog) && e !in visiting && e !in ctx.ready ==> !GuardFires(e, ctx, visiting + {e})
    {
    }
    hide Evaluate, DependencyReasons, OneDependency, Blocks, Ids, DescriptorOf, HasMore, GuardFires, GuardFiresAt;
    Declared(ctx, u);
    forall e | e in deps && NotReady(d) in OneDependency(e, ctx, visiting)
      ensures Blocks(ctx, visiting, u, d) && d in Ids(ctx.catalog) && HasMore(ctx, d)
    {
      NotReadyByDependency(e, ctx, visiting, d);
      FewerToVisit(ctx, visiting, e);
      NotReadyIff(e, ctx, visiting + {e}, d);
      StepThenBlocks(ctx, visiting, u, e, d);
    }
    if Blocks(ctx, visiting, u, d) && d in Ids(ctx.catalog) && HasMore(ctx, d) {
      var e := FirstStep(ctx, visiting, u, d);
      FewerToVisit(ctx, visiting, e);
      NotReadyIff(e, ctx, visiting + {e}, d);
      NotReadyByDependency(e, ctx, visiting, d);
    }
  }

  // ------------------------------------------------------------ the evaluations

  /** What the scope and declaration reasons of every evaluation mean, on any catalog: a unit that is
      not catalogued is unknown, unless it is the transport; one that is answers at construction for
      its own scope, and from startup on for everything behind it. */
  lemma EveryReasonMeans(u: string, ctx: Context, layer: Layer, r: Reason)
    requires Plain(r)
    ensures r in EvaluateUnit(u, ctx, layer).reasons <==>
            if u !in Ids(ctx.catalog) then u != TRANSPORT_UNIT_ID && r == Reason(UnitUnknown, Some(u))
            else if layer == Construction then AtScope(ctx, u, r)
            else MissingBehind(ctx, {u}, u, r)
  {
    if u in Ids(ctx.catalog) {
      hide Evaluate, DependencyReasons;
      GivenByUnit(u, ctx, layer, {u}, r);
      PlainIff(u, ctx, {u}, r);
      if AtScope(ctx, u, r) { MissingScope(ctx, u, r); }
    }
    hide DependencyReasons;
  }

  /** All reasons of a catalogued unit whose catalog the cycle check accepts, code by code. */
  lemma AcceptedReasonsMean(u: string, ctx: Context, layer: Layer, r: Reason)
    requires DistinctIds(ctx.catalog) && Acyclic(GraphOf(ctx.catalog, |ctx.catalog|)) && u in Ids(ctx.catalog)
    requires layer != Construction
    ensures r in EvaluateUnit(u, ctx, layer).reasons <==>
      match r.code
      case DependencyNotReady =>
        && r.dependencyId.Some? && var d := r.dependencyId.value;
        && Blocks(ctx, {}, u, d) && d in Ids(ctx.catalog) && HasMore(ctx, d)
      case UnitNotReady =>
        && r.dependencyId.Some? && var d := r.dependencyId.value;
        && (Blocks(ctx, {}, u, d) || (layer == Availability && d == u && u !in ctx.ready))
      case _ => MissingBehind(ctx, {}, u, r)
  {
    forall x ensures Blocks(ctx, {}, u, x) <==> Blocks(ctx, {u}, u, x) {
      AcceptedCatalogExplains(u, ctx, x);
      StartupNamesReachable(u, ctx, x);
    }
    AcceptedCatalogExplains(u, ctx, u);
    hide Blocks, Acyclic, GraphOf, DistinctIds, Evaluate, HasMore, GuardFires;
    forall x ensures Behind(ctx, {}, u, x) <==> Behind(ctx, {u}, u, x) { }
    assert MissingBehind(ctx, {}, u, r) <==> MissingBehind(ctx, {u}, u, r);
    GivenByUnit(u, ctx, layer, {u}, r);
    if Plain(r) {
      EveryReasonMeans(u, ctx, layer, r);
    } else if r.dependencyId.None? {
      if r in DependencyReasons(Dependencies(ctx, u), ctx, {u}) { NamesAUnit(Dependencies(ctx, u), ctx, {u}, r); }
    } else if r.code == DependencyNotReady {
      NotReadyIff(u, ctx, {u}, r.dependencyId.value);
    } else {
      NamedIffBlocked(u, ctx, {u}, r.dependencyId.value);
    }
    hide MissingBehind;
  }

  /** Only scope reasons come without a unit. */
  lemma {:induction false} NamesAUnit(deps: seq<string>, ctx: Context, visiting: set<string>, r: Reason)
    requires r in DependencyReasons(deps, ctx, visiting) && !Plain(r)
    ensures r.dependencyId.Some?
    decreases |Ids(ctx.catalog) - visiting|
  {
    GivenByOne(deps, ctx, visiting, r);
    var d :| d in deps && r in OneDependency(d, ctx, visiting);
    if d in Ids(ctx.catalog) && d !in visiting && d !in ctx.ready {
      FewerToVisit(ctx, visiting, d);
      GivenByUnit(d, ctx, Availability, visiting + {d}, r);
      if r in DependencyReasons(Dependencies(ctx, d), ctx, visiting + {d}) {
        NamesAUnit(Dependencies(ctx, d), ctx, visiting + {d}, r);
      }
    }
    hide Evaluate, DependencyReasons;
  }
}
