/** The registry of running unit instances and the reconcile loop that its changes wake. */
module UnitRegistry {
  import opened Prelude
  import opened UnitCatalog

  /** An instance id given by the caller, or the registry's own numbered one. */
  datatype InstanceId = Supplied(name: string) | Numbered(unitId: string, number: nat)

  datatype Identity = Identity(owner: Option<string>, sessionEpoch: Option<string>)

  datatype Entry = Entry(instanceId: InstanceId, identity: Identity, ready: bool, error: Option<string>, revision: nat)

  datatype RegistryError = NotInCatalog | OwnerNotAllowed | OwnerMissing | Occupied | Superseded

  datatype Registry = Registry(scopes: map<string, ScopeKind>, active: map<string, Entry>, nextInstance: nat,
    revision: nat)

  /** A registry call: the new registry, what the caller gets, and whether subscribers were notified. */
  datatype Outcome = Outcome(registry: Registry, result: Result<Option<Entry>, RegistryError>, notified: bool)

  predicate NeedsOwner(k: ScopeKind) { k == OwnerSession || k == ConnectSession }

  predicate Present(s: Option<string>) { s.Some? && s.value != "" }

  function IdentityError(k: ScopeKind, id: Identity): Option<RegistryError> {
    if !NeedsOwner(k) then (if id.owner.Some? || id.sessionEpoch.Some? then Some(OwnerNotAllowed) else None)
    else if !Present(id.owner) || !Present(id.sessionEpoch) then Some(OwnerMissing)
    else None
  }

  /** Bumps the revision and stamps it on every active entry. */
  function Touched(r: Registry): Registry {
    r.(revision := r.revision + 1, active := map u | u in r.active :: r.active[u].(revision := r.revision + 1))
  }

  function Activate(r: Registry, unitId: string, identity: Identity, given: Option<string>): Outcome {
    if unitId !in r.scopes then Outcome(r, Err(NotInCatalog), false)
    else
      var bad := IdentityError(r.scopes[unitId], identity);
      if bad.Some? then Outcome(r, Err(bad.value), false)
      else if unitId in r.active then
        if r.active[unitId].identity != identity then Outcome(r, Err(Occupied), false)
        else Outcome(r, Ok(Some(r.active[unitId])), false)
      else
        var number := if given.Some? then r.nextInstance else r.nextInstance + 1;
        var id := if given.Some? then Supplied(given.value) else Numbered(unitId, number);
        var r1 := Touched(r.(active := r.active[unitId := Entry(id, identity, false, None, r.revision)],
          nextInstance := number));
        Outcome(r1, Ok(Some(r1.active[unitId])), true)
  }

  predicate Current(r: Registry, unitId: string, id: InstanceId) {
    unitId in r.active && r.active[unitId].instanceId == id
  }

  function SetEntry(r: Registry, unitId: string, e: Entry): Outcome {
    var r1 := Touched(r.(active := r.active[unitId := e]));
    Outcome(r1, Ok(Some(r1.active[unitId])), true)
  }

  function MarkReady(r: Registry, unitId: string, id: InstanceId): Outcome {
    if !Current(r, unitId, id) then Outcome(r, Err(Superseded), false)
    else
      var e := r.active[unitId];
      if !e.ready || e.error.Some? then SetEntry(r, unitId, e.(ready := true, error := None))
      else Outcome(r, Ok(Some(e)), false)
  }

  function MarkFailed(r: Registry, unitId: string, id: InstanceId, error: string): Outcome {
    if !Current(r, unitId, id) then Outcome(r, Ok(None), false)
    else
      var e := r.active[unitId];
      if e.ready || e.error != Some(error) then SetEntry(r, unitId, e.(ready := false, error := Some(error)))
      else Outcome(r, Ok(Some(e)), false)
  }

  /** The result is the removed entry, or none if nothing was removed. */
  function Stop(r: Registry, unitId: string, id: Option<InstanceId>): Outcome {
    if unitId !in r.active || (id.Some? && r.active[unitId].instanceId != id.value) then Outcome(r, Ok(None), false)
    else Outcome(Touched(r.(active := r.active - {unitId})), Ok(Some(r.active[unitId])), true)
  }

  datatype Call =
    | DoActivate(unitId: string, identity: Identity, given: Option<string>)
    | DoReady(unitId: string, id: InstanceId)
    | DoFail(unitId: string, id: InstanceId, error: string)
    | DoStop(unitId: string, target: Option<InstanceId>)

  function Apply(r: Registry, c: Call): Outcome {
    match c
    case DoActivate(u, identity, given) => Activate(r, u, identity, given)
    case DoReady(u, id) => MarkReady(r, u, id)
    case DoFail(u, id, error) => MarkFailed(r, u, id, error)
    case DoStop(u, id) => Stop(r, u, id)
  }

  // ------------------------------------------------------ the reconcile loop

  datatype Loop = Idle | Queued | Reconciling

  /** `startedAt` is the registry revision that the latest reconcile saw when it started;
      `starts` and `settles` count the reconciles of this loop. */
  datatype Worker = Worker(
    registry: Registry,
    requested: bool,
    scheduled: bool,
    loop: Loop,
    startedAt: nat,
    starts: nat,
    settles: nat)

  /** scheduleCoordinatorRuntimeReconcile. */
  function Scheduled(w: Worker): Worker {
    if w.scheduled then w.(requested := true) else w.(requested := true, scheduled := true, loop := Queued)
  }

  function Called(w: Worker, c: Call): Worker {
    var o := Apply(w.registry, c);
    var w1 := w.(registry := o.registry);
    if o.notified then Scheduled(w1) else w1
  }

  function Started(w: Worker): Worker {
    w.(requested := false, loop := Reconciling, startedAt := w.registry.revision, starts := w.starts + 1)
  }

  datatype Event = RegistryCall(call: Call) | RunMicrotask | ReconcileSettles

  function Step(w: Worker, e: Event): Worker {
    match e
    case RegistryCall(c) => Called(w, c)
    case RunMicrotask => if w.loop == Queued then Started(w) else w
    case ReconcileSettles =>
      if w.loop != Reconciling then w
      else if w.requested then Started(w.(settles := w.settles + 1))
      else w.(scheduled := false, loop := Idle, settles := w.settles + 1)
  }

  function Begin(scopes: map<string, ScopeKind>): Worker {
    Worker(Registry(scopes, map[], 0, 0), false, false, Idle, 0, 0, 0)
  }

  function Run(w: Worker, es: seq<Event>): Worker {
    if es == [] then w else Step(Run(w, es[..|es| - 1]), es[|es| - 1])
  }

  // --------------------------------------------------------------- theorems

  /** What a subscriber can see of the active units: everything but the revision stamp. */
  function Visible(r: Registry): map<string, (InstanceId, Identity, bool, Option<string>)> {
    map u | u in r.active :: (r.active[u].instanceId, r.active[u].identity, r.active[u].ready, r.active[u].error)
  }

  ghost predicate Stamped(r: Registry) {
    forall u :: u in r.active ==> r.active[u].revision == r.revision && u in r.scopes
  }

  /** A call notifies exactly when the visible units change, and exactly then the revision goes up by one. */
  lemma NotifiesIffVisiblyChanged(r: Registry, c: Call)
    requires Stamped(r)
    ensures var o := Apply(r, c);
            && Stamped(o.registry) && o.registry.scopes == r.scopes
            && (o.notified <==> Visible(o.registry) != Visible(r))
            && o.registry.revision == (if o.notified then r.revision + 1 else r.revision)
            && (!o.notified ==> o.registry == r)
  {
    var o := Apply(r, c);
    if o.notified {
      match c
      case DoActivate(u, _, _) => assert u in Visible(o.registry) && u !in Visible(r);
      case DoStop(u, _) => assert u !in Visible(o.registry) && u in Visible(r);
      case DoReady(u, _) => assert Visible(o.registry)[u] != Visible(r)[u];
      case DoFail(u, _, _) => assert Visible(o.registry)[u] != Visible(r)[u];
    }
  }

  /** What an accepted call leaves visible of its unit; no call touches another unit. */
  lemma CallsTakeEffect(r: Registry, c: Call)
    ensures var o := Apply(r, c);
            && (forall u :: u != c.unitId ==> (u in Visible(o.registry) <==> u in Visible(r)))
            && (forall u :: u != c.unitId && u in Visible(r) ==> Visible(o.registry)[u] == Visible(r)[u])
            && (o.result.Ok? && c.DoActivate? ==>
              c.unitId in o.registry.active && o.registry.active[c.unitId].identity == c.identity)
            && (o.result.Ok? && c.DoActivate? && c.unitId !in r.active ==>
                 !o.registry.active[c.unitId].ready && o.registry.active[c.unitId].error == None)
            && (c.DoReady? && Current(r, c.unitId, c.id) ==>
                 c.unitId in o.registry.active && o.registry.active[c.unitId].ready
                   && o.registry.active[c.unitId].error == None)
            && (c.DoFail? && Current(r, c.unitId, c.id) ==>
                 c.unitId in o.registry.active && !o.registry.active[c.unitId].ready
                   && o.registry.active[c.unitId].error == Some(c.error))
            && (c.DoStop? && (c.target.None? || Current(r, c.unitId, c.target.value)) ==>
              c.unitId !in o.registry.active)
  {
  }

  /** A call with an instance id that is no longer current changes nothing and wakes nobody. */
  lemma SupersededCallsAreSilent(w: Worker, c: Call)
    requires match c
             case DoActivate(_, _, _) => false
             case DoReady(u, id) => !Current(w.registry, u, id)
             case DoFail(u, id, _) => !Current(w.registry, u, id)
             case DoStop(u, id) => id.Some? && !Current(w.registry, u, id.value)
    ensures Step(w, RegistryCall(c)) == w
  {
  }

  // ---------------------------------------------------------- instances over runs

  /** The owner identity that a unit of this scope may be activated with. */
  predicate IdentityFits(k: ScopeKind, id: Identity) {
    if k == OwnerSession || k == ConnectSession then
      id.owner.Some? && id.owner.value != "" && id.sessionEpoch.Some? && id.sessionEpoch.value != ""
    else id.owner.None? && id.sessionEpoch.None?
  }

  /** An activation succeeds iff the unit is catalogued, the identity fits its scope, and the unit is
      free or active under this very identity; a free unit gets the id that was brought, or the next
      number. Readiness succeeds iff the id is the active one's. */
  lemma SuccessIff(r: Registry, u: string, identity: Identity, given: Option<string>, id: InstanceId)
    ensures var o := Activate(r, u, identity, given);
            && (o.result.Ok? <==>
                 && u in r.scopes && IdentityFits(r.scopes[u], identity)
                 && (u in r.active ==> r.active[u].identity == identity))
            && (o.result.Ok? ==> u in o.registry.active && o.result.value == Some(o.registry.active[u]))
            && (o.result.Ok? && u in r.active ==> o.registry == r)
            && (o.result.Ok? && u !in r.active ==>
                 && o.registry.active[u].instanceId ==
                      (if given.Some? then Supplied(given.value) else Numbered(u, r.nextInstance + 1))
                 && o.registry.nextInstance == (if given.Some? then r.nextInstance else r.nextInstance + 1))
            && (o.result.Err? ==> o.registry == r && !o.notified)
    ensures MarkReady(r, u, id).result.Ok? <==> u in r.active && r.active[u].instanceId == id
  {
  }

  /** The id that a call newly hands out: that of a unit which was not active before. */
  function HandsOut(r: Registry, c: Call): Option<InstanceId> {
    var o := Apply(r, c);
    if c.DoActivate? && c.unitId !in r.active && c.unitId in o.registry.active
    then Some(o.registry.active[c.unitId].instanceId) else None
  }

  /** The numbers handed out along a run. */
  function Numbers(w: Worker, es: seq<Event>): seq<nat> {
    if es == [] then []
    else
      var before, e := es[..|es| - 1], es[|es| - 1];
      var r := Run(w, before).registry;
      Numbers(w, before) + (if !e.RegistryCall? then []
                            else match HandsOut(r, e.call)
                              case Some(Numbered(_, n)) => [n]
                              case _ => [])
  }

  /** No number in use is beyond the counter. */
  predicate NumbersOk(r: Registry) {
    forall u :: u in r.active && r.active[u].instanceId.Numbered? ==> r.active[u].instanceId.number <= r.nextInstance
  }

  lemma CallKeepsNumbers(r: Registry, c: Call)
    requires NumbersOk(r)
    ensures var o := Apply(r, c);
            && NumbersOk(o.registry) && r.nextInstance <= o.registry.nextInstance
            && (match HandsOut(r, c)
                case Some(Numbered(_, n)) => r.nextInstance < n <= o.registry.nextInstance
                case _ => true)
  {
  }

  lemma StepKeepsNumbers(w: Worker, e: Event)
    requires NumbersOk(w.registry)
    ensures NumbersOk(Step(w, e).registry) && w.registry.nextInstance <= Step(w, e).registry.nextInstance
    ensures Step(w, e).registry == if e.RegistryCall? then Apply(w.registry, e.call).registry else w.registry
  {
    if e.RegistryCall? { CallKeepsNumbers(w.registry, e.call); }
    hide Apply, NumbersOk;
  }

  /** Every number handed out is greater than all before it: no two instances share one. */
  lemma {:induction false} NumbersIncrease(w: Worker, es: seq<Event>)
    requires NumbersOk(w.registry)
    ensures NumbersOk(Run(w, es).registry)
    ensures forall n :: n in Numbers(w, es) ==> n <= Run(w, es).registry.nextInstance
    ensures forall j, k :: 0 <= j < k < |Numbers(w, es)| ==> Numbers(w, es)[j] < Numbers(w, es)[k]
  {
    if es != [] {
      var before, e := es[..|es| - 1], es[|es| - 1];
      NumbersIncrease(w, before);
      StepKeepsNumbers(Run(w, before), e);
      if e.RegistryCall? { CallKeepsNumbers(Run(w, before).registry, e.call); }
      var a := Numbers(w, before);
      assert forall j :: 0 <= j < |a| ==> a[j] in a;
      assert Numbers(w, es) == a || exists n :: Numbers(w, es) == a + [n] && n > Run(w, before).registry.nextInstance;
    }
    hide Apply, HandsOut, NumbersOk, Step;
  }

  /** The event activates the unit under this name, brought by its caller. */
  predicate Brings(e: Event, u: string, id: InstanceId) {
    id.Supplied? && e.RegistryCall? && e.call.DoActivate? && e.call.unitId == u && e.call.given == Some(id.name)
  }

  lemma GoneStaysOut(w: Worker, e: Event, u: string, id: InstanceId)
    requires NumbersOk(w.registry) && !Current(w.registry, u, id) && !Brings(e, u, id)
    requires id.Numbered? ==> id.number <= w.registry.nextInstance
    ensures !Current(Step(w, e).registry, u, id)
  {
    StepKeepsNumbers(w, e);
    hide Step;
  }

  lemma {:induction false} GoneForGood(w: Worker, es: seq<Event>, u: string, id: InstanceId)
    requires NumbersOk(w.registry) && !Current(w.registry, u, id)
    requires id.Numbered? ==> id.number <= w.registry.nextInstance
    requires forall k :: 0 <= k < |es| ==> !Brings(es[k], u, id)
    ensures !Current(Run(w, es).registry, u, id)
    ensures id.Numbered? ==> id.number <= Run(w, es).registry.nextInstance
  {
    if es != [] {
      var before, e := es[..|es| - 1], es[|es| - 1];
      GoneForGood(w, before, u, id);
      NumbersIncrease(w, before);
      StepKeepsNumbers(Run(w, before), e);
      GoneStaysOut(Run(w, before), e, u, id);
    }
    hide Step, Current, NumbersOk, Numbers, Brings;
  }

  /** An instance that was stopped or replaced never becomes current again, unless a caller brings the
      same name; a call that still carries its id changes nothing, however the run has gone on. */
  lemma OldInstancesStayOut(scopes: map<string, ScopeKind>, es: seq<Event>, j: nat, k: nat, u: string, id: InstanceId,
    c: Call)
    requires j <= k <= |es|
    requires Current(Run(Begin(scopes), es[..j]).registry, u, id)
        && !Current(Run(Begin(scopes), es[..k]).registry, u, id)
    requires forall m :: k <= m < |es| ==> !Brings(es[m], u, id)
    requires match c
             case DoActivate(_, _, _) => false
             case DoReady(v, x) => v == u && x == id
             case DoFail(v, x, _) => v == u && x == id
             case DoStop(v, x) => v == u && x == Some(id)
    ensures !Current(Run(Begin(scopes), es).registry, u, id)
    ensures Run(Begin(scopes), es + [RegistryCall(c)]) == Run(Begin(scopes), es)
  {
    var w := Begin(scopes);
    NumbersIncrease(w, es[..j]);
    RunSplits(w, es, j, k);
    RunSplits(w, es, k, |es|);
    assert es[..|es|] == es;
    CounterRises(Run(w, es[..j]), es[j..k]);
    CurrentIsCounted(Run(w, es[..j]).registry, u, id);
    GoneForGood(Run(w, es[..k]), es[k..], u, id);
    SupersededCallsAreSilent(Run(w, es), c);
    assert (es + [RegistryCall(c)])[..|es|] == es;
    hide Run, Current, NumbersOk, Brings;
  }

  lemma CurrentIsCounted(r: Registry, u: string, id: InstanceId)
    requires NumbersOk(r) && Current(r, u, id)
    ensures id.Numbered? ==> id.number <= r.nextInstance
  { }

  lemma {:induction false} CounterRises(w: Worker, es: seq<Event>)
    requires NumbersOk(w.registry)
    ensures NumbersOk(Run(w, es).registry) && w.registry.nextInstance <= Run(w, es).registry.nextInstance
  {
    if es != [] {
      CounterRises(w, es[..|es| - 1]);
      StepKeepsNumbers(Run(w, es[..|es| - 1]), es[|es| - 1]);
    }
    hide Step, NumbersOk;
  }

  lemma {:induction false} RunSplits(w: Worker, es: seq<Event>, j: nat, k: nat)
    requires j <= k <= |es|
    ensures Run(w, es[..k]) == Run(Run(w, es[..j]), es[j..k])
    decreases k
  {
    if j < k {
      RunSplits(w, es, j, k - 1);
      assert es[..k][..k - 1] == es[..k - 1] && es[j..k][..k - 1 - j] == es[j..k - 1];
    } else {
      assert es[j..k] == [];
    }
    hide Step;
  }

  // -------------------------------------------------------------- the loop over runs

  /** Flags and loop agree, reconciles never overlap, and the latest reconcile has seen every
      change that is not still requested. */
  ghost predicate LoopOk(w: Worker) {
    && Stamped(w.registry)
    && (w.scheduled <==> w.loop != Idle)
    && (w.requested ==> w.scheduled)
    && (w.loop == Queued ==> w.requested)
    && w.starts == w.settles + (if w.loop == Reconciling then 1 else 0)
    && w.startedAt <= w.registry.revision
    && (!w.requested ==> w.startedAt == w.registry.revision)
  }

  lemma StepKeepsLoop(w: Worker, e: Event)
    requires LoopOk(w)
    ensures LoopOk(Step(w, e))
  {
    if e.RegistryCall? { NotifiesIffVisiblyChanged(w.registry, e.call); }
    hide Apply;
  }

  lemma {:induction false} RunKeepsLoop(w: Worker, es: seq<Event>)
    requires LoopOk(w)
    ensures LoopOk(Run(w, es))
  {
    if es != [] {
      RunKeepsLoop(w, es[..|es| - 1]);
      StepKeepsLoop(Run(w, es[..|es| - 1]), es[|es| - 1]);
      hide Step, LoopOk;
    }
  }

  /** No lost wake-up: whenever the loop is idle its latest reconcile started after the latest
      change; and from any reachable state, once calls stop, the microtask and two settled
      reconciles at most bring it there, with one reconcile at a time. */
  lemma NoLostWakeUp(scopes: map<string, ScopeKind>, es: seq<Event>)
    ensures var w := Run(Begin(scopes), es);
            && (w.loop == Idle ==> !w.requested && w.startedAt == w.registry.revision)
            && w.settles <= w.starts <= w.settles + 1
            && var quiet := Step(Step(Step(w, RunMicrotask), ReconcileSettles), ReconcileSettles);
               quiet.loop == Idle && quiet.startedAt == w.registry.revision && quiet.registry == w.registry
  {
    RunKeepsLoop(Begin(scopes), es);
    hide Run, Apply;
  }

  // ---------------------------------------------------------------- in place

  class UnitWorker {
    const scopes: map<string, ScopeKind>
    var active: map<string, Entry>
    var nextInstance: nat
    var snapshotRevision: nat
    var requested: bool
    var scheduled: bool
    var loop: Loop
    ghost var startedAt: nat
    ghost var starts: nat
    ghost var settles: nat

    function Units(): Registry
      reads this
    {
      Registry(scopes, active, nextInstance, snapshotRevision)
    }

    ghost function View(): Worker
      reads this
    {
      Worker(Units(), requested, scheduled, loop, startedAt, starts, settles)
    }

    constructor (scopes: map<string, ScopeKind>)
      ensures View() == Begin(scopes)
    {
      this.scopes := scopes;
      active, nextInstance, snapshotRevision := map[], 0, 0;
      requested, scheduled, loop := false, false, Idle;
      startedAt, starts, settles := 0, 0, 0;
    }

    method ScheduleReconcile()
      modifies this`requested, this`scheduled, this`loop
      ensures View() == Scheduled(old(View()))
    {
      requested := true;
      if scheduled { return; }
      scheduled := true;
      loop := Queued;
    }

    /** Stamps the new revision on every active entry, then notifies the one subscriber. */
    method Touch()
      modifies this
      ensures View() == Scheduled(old(View()).(registry := Touched(old(Units()))))
    {
      snapshotRevision := snapshotRevision + 1;
      active := map u | u in active :: active[u].(revision := snapshotRevision);
      ScheduleReconcile();
    }

    method ActivateUnit(unitId: string, identity: Identity, given: Option<string>)
      returns (result: Result<Option<Entry>, RegistryError>)
      modifies this
      ensures View() == Called(old(View()), DoActivate(unitId, identity, given))
      ensures result == Activate(old(Units()), unitId, identity, given).result
    {
      if unitId !in scopes { return Err(NotInCatalog); }
      var bad := IdentityError(scopes[unitId], identity);
      if bad.Some? { return Err(bad.value); }
      if unitId in active {
        if active[unitId].identity != identity { return Err(Occupied); }
        return Ok(Some(active[unitId]));
      }
      var id := Supplied("");
      if given.Some? {
        id := Supplied(given.value);
      } else {
        nextInstance := nextInstance + 1;
        id := Numbered(unitId, nextInstance);
      }
      active := active[unitId := Entry(id, identity, false, None, snapshotRevision)];
      Touch();
      return Ok(Some(active[unitId]));
    }

    method ReadyUnit(unitId: string, id: InstanceId) returns (result: Result<Option<Entry>, RegistryError>)
      modifies this
      ensures View() == Called(old(View()), DoReady(unitId, id))
      ensures result == MarkReady(old(Units()), unitId, id).result
    {
      if unitId !in active || active[unitId].instanceId != id { return Err(Superseded); }
      if !active[unitId].ready || active[unitId].error.Some? {
        active := active[unitId := active[unitId].(ready := true, error := None)];
        Touch();
      }
      return Ok(Some(active[unitId]));
    }

    method FailUnit(unitId: string, id: InstanceId, error: string)
      returns (result: Result<Option<Entry>, RegistryError>)
      modifies this
      ensures View() == Called(old(View()), DoFail(unitId, id, error))
      ensures result == MarkFailed(old(Units()), unitId, id, error).result
    {
      if unitId !in active || active[unitId].instanceId != id { return Ok(None); }
      if active[unitId].ready || active[unitId].error != Some(error) {
        active := active[unitId := active[unitId].(ready := false, error := Some(error))];
        Touch();
      }
      return Ok(Some(active[unitId]));
    }

    method StopUnit(unitId: string, target: Option<InstanceId>) returns (stopped: bool)
      modifies this
      ensures View() == Called(old(View()), DoStop(unitId, target))
      ensures stopped == Stop(old(Units()), unitId, target).notified
    {
      if unitId !in active { return false; }
      if target.Some? && active[unitId].instanceId != target.value { return false; }
      active := active - {unitId};
      Touch();
      return true;
    }

    /** One turn of the loop in the microtask: reconcile starts. */
    method StartReconcile()
      requires loop == Queued
      modifies this
      ensures View() == Step(old(View()), RunMicrotask)
    {
      requested := false;
      loop := Reconciling;
      startedAt, starts := snapshotRevision, starts + 1;
    }

    /** The reconcile settled: go round again if a change came in, otherwise stop. */
    method OnReconciled()
      requires loop == Reconciling
      modifies this
      ensures View() == Step(old(View()), ReconcileSettles)
    {
      settles := settles + 1;
      if requested {
        requested := false;
        startedAt, starts := snapshotRevision, starts + 1;
      } else {
        scheduled := false;
        loop := Idle;
      }
    }
  }
}
