/** The final I/O wrapper together with the leases that it takes: every stretch that takes or leaves
    an I/O lease acts on the authority in the same step. */
module FinalIoLeases {
  import opened Prelude
  import F = FinalIo
  import T = FinalIoTheorems
  import L = AuthorityLeases

  /** What a call was given: a handle on the shared read lease, or a write lease of its own. */
  datatype Held = ReadHandle(handle: nat) | WriteLease(write: nat)

  /** `waiting` are the reading calls whose acquires stand in the mutex queue, in order. */
  datatype System = System(io: F.State, leases: L.State, held: map<nat, Held>, waiting: seq<nat>)

  datatype Event =
    | Io(event: F.Event)                          // any event of the wrapper but the answer of a lease
    | WriteAnswers(call: nat, current: bool)      // the authority check of a writing call's acquire
    | Mutex(turn: L.Event)                        // a turn of the mutex, or its authority check
    | Claim

  // ------------------------------------------------------------ transitions

  /** The lease goes back when the call leaves. */
  function Returned(leases: L.State, h: Held): L.State {
    match h
    case ReadHandle(x) => L.Step(leases, L.ReleaseRead(x))
    case WriteLease(x) => L.Step(leases, L.ReleaseWrite(x))
  }

  /** What the step of call `i` from `before` does to its lease: it asks for one, or gives it back. */
  function After(s: System, before: F.State, i: nat): System {
    if i >= |s.io.calls| || i >= |before.calls| then s
    else
      var c, d := before.calls[i], s.io.calls[i];
      if d.phase == F.AwaitingIoLease && c.phase != F.AwaitingIoLease && d.kind == F.Read then
        s.(leases := L.Step(s.leases, L.CallRead), waiting := s.waiting + [i])
      else if T.Leaves(d) && !T.Leaves(c) && i in s.held then s.(leases := Returned(s.leases, s.held[i]))
      else s
  }

  /** The acquire of call `i` has ended; its continuation runs. */
  function Answered(s: System, i: nat, got: Option<Held>): System {
    var held := if got.Some? then s.held[i := got.value] else s.held;
    After(s.(io := F.Step(s.io, F.IoLeaseAnswers(i, got.Some?)), held := held), s.io, i)
  }

  function WriteAnswered(s: System, i: nat, current: bool): System {
    var l := L.Step(s.leases, L.AcquireWrite(current));
    var n := |s.leases.writes|;
    Answered(s.(leases := l), i, if |l.writes| > n then Some(WriteLease(n)) else None)
  }

  function MutexMoved(s: System, e: L.Event): System {
    var l := L.Step(s.leases, e);
    var s1 := s.(leases := l);
    if s.leases.queue != [] && s.leases.queue[0].Acquire? && |l.queue| < |s.leases.queue| && s.waiting != [] then
      var n := |s.leases.handles|;
      Answered(s1.(waiting := s.waiting[1..]), s.waiting[0], if |l.handles| > n then Some(ReadHandle(n)) else None)
    else s1
  }

  predicate Enabled(s: System, e: Event) {
    match e
    case Io(f) => !f.IoLeaseAnswers?
    case WriteAnswers(i, _) => i < |s.io.calls| && s.io.calls[i].phase == F.AwaitingIoLease
      && s.io.calls[i].kind == F.Write
    case Mutex(l) => l.RunNext? || l.Resume?
    case Claim => true
  }

  function Step(s: System, e: Event): System {
    if !Enabled(s, e) then s
    else match e
      case Io(f) =>
        var s1 := s.(io := F.Step(s.io, f));
        if T.Target(f).Some? then After(s1, s.io, T.Target(f).value) else s1
      case WriteAnswers(i, current) => WriteAnswered(s, i, current)
      case Mutex(l) => MutexMoved(s, l)
      case Claim => s.(leases := L.Step(s.leases, L.Claim))
  }

  function Run(session: F.Session, es: seq<Event>): System {
    if es == [] then System(F.Initial(session), L.Initial(), map[], [])
    else Step(Run(session, es[..|es| - 1]), es[|es| - 1])
  }

  // --------------------------------------------------------------- invariant

  function Acquires(queue: seq<L.Operation>): nat {
    if queue == [] then 0 else (if queue[0].Acquire? then 1 else 0) + Acquires(queue[1..])
  }

  /** What a call holds is of its kind, and given back exactly when the call has left. */
  predicate HeldOk(c: F.Call, h: Held, leases: L.State) {
    match h
    case ReadHandle(x) => c.kind == F.Read && x < |leases.handles| && (leases.handles[x].released <==> T.Leaves(c))
    case WriteLease(x) => c.kind == F.Write && x < |leases.writes| && (leases.writes[x].released <==> T.Leaves(c))
  }

  predicate Waits(c: F.Call) { c.phase == F.AwaitingIoLease && c.kind == F.Read }

  ghost predicate HoldersOk(calls: seq<F.Call>, held: map<nat, Held>, leases: L.State) {
    && (forall i :: i in held ==> i < |calls| && HeldOk(calls[i], held[i], leases))
    && (forall i: nat :: i < |calls| ==> (calls[i].ioLease <==> i in held))
    && (forall i, j :: i in held && j in held && i != j ==> held[i] != held[j])
  }

  ghost predicate Owned(held: map<nat, Held>, h: Held) { exists i :: i in held && held[i] == h }

  /** Every lease that was given out belongs to a call. */
  ghost predicate AllOwned(held: map<nat, Held>, leases: L.State) {
    && (forall h: nat :: h < |leases.handles| ==> Owned(held, ReadHandle(h)))
    && (forall w: nat :: w < |leases.writes| ==> Owned(held, WriteLease(w)))
  }

  ghost predicate WaitingOk(calls: seq<F.Call>, waiting: seq<nat>, queue: seq<L.Operation>) {
    && (forall i :: i in waiting ==> i < |calls| && Waits(calls[i]))
    && (forall i: nat :: i < |calls| && Waits(calls[i]) ==> i in waiting)
    && (forall j, k :: 0 <= j < k < |waiting| ==> waiting[j] != waiting[k])
    && |waiting| == Acquires(queue)
  }

  ghost predicate Inv(s: System) {
    && T.Inv(s.io)
    && L.Inv(s.leases)
    && HoldersOk(s.io.calls, s.held, s.leases)
    && AllOwned(s.held, s.leases)
    && WaitingOk(s.io.calls, s.waiting, s.leases.queue)
  }

  // ------------------------------------------------- what the wrapper does to a call

  /** One step of the wrapper as far as leases matter. */
  ghost predicate CallMoves(c: F.Call, d: F.Call, i: nat, e: F.Event) {
    && d.kind == c.kind
    && (d.ioLease <==> c.ioLease || (e == F.IoLeaseAnswers(i, true) && c.phase == F.AwaitingIoLease))
    && (T.Leaves(c) ==> T.Leaves(d))
    && (d.phase == F.AwaitingIoLease ==> !d.ioLease)
    && (e.IoLeaseAnswers? && e.call == i && c.phase == F.AwaitingIoLease ==>
      d.phase != F.AwaitingIoLease && (!e.ok ==> T.Leaves(d)))
    && (c.phase == F.AwaitingIoLease && d.phase != F.AwaitingIoLease ==> e.IoLeaseAnswers? && e.call == i)
    && (d.phase == F.AwaitingIoLease && c.phase != F.AwaitingIoLease ==> T.Target(e) == Some(i))
    && (T.Target(e) != Some(i) ==> d == c)
  }

  ghost predicate AllMove(s: F.State, t: F.State, e: F.Event) {
    && |s.calls| <= |t.calls|
    && (forall i: nat :: i < |s.calls| ==> CallMoves(s.calls[i], t.calls[i], i, e))
    && (forall i: nat :: |s.calls| <= i < |t.calls| ==> t.calls[i].phase == F.AwaitingAdmission && !t.calls[i].ioLease)
    && (T.Target(e).Some? ==> |t.calls| == |s.calls|)
  }

  /** Only call `k` changed, and how. */
  ghost predicate OneMoves(s: F.State, t: F.State, e: F.Event, k: nat) {
    && k < |s.calls| && |t.calls| == |s.calls|
    && (forall j: nat :: j < |s.calls| && j != k ==> t.calls[j] == s.calls[j])
    && CallMoves(s.calls[k], t.calls[k], k, e)
  }

  lemma OneIsAll(s: F.State, t: F.State, e: F.Event, k: nat)
    requires T.Inv(s) && OneMoves(s, t, e, k) && T.Target(e) == Some(k)
    ensures AllMove(s, t, e)
  {
    forall i: nat | i < |s.calls| && i != k ensures CallMoves(s.calls[i], t.calls[i], i, e) {
      assert T.CallOk(s.calls[i]);
    }
    hide T.Inv;
  }

  lemma LeavingMoves(s: F.State, e: F.Event, i: nat, outcome: F.Outcome, o: F.A.AuditOutcome)
    requires i < |s.calls| && T.Target(e) == Some(i)
    requires s.calls[i].phase == F.AwaitingIoLease ==> e == F.IoLeaseAnswers(i, false)
    requires !(e == F.IoLeaseAnswers(i, true) && s.calls[i].phase == F.AwaitingIoLease)
    ensures OneMoves(s, F.Leaving(F.Audited(s, i, o), i, outcome), e, i)
  { hide F.A.Finished; }

  lemma BodyEffect(s: F.State, i: nat)
    requires i < |s.calls|
    ensures var t := F.Body(s, i);
            && |t.calls| == |s.calls| && (forall j: nat :: j < |s.calls| && j != i ==> t.calls[j] == s.calls[j])
            && t.calls[i].kind == s.calls[i].kind && t.calls[i].ioLease == s.calls[i].ioLease
            && (t.calls[i].phase == F.Running || T.Leaves(t.calls[i]))
  { hide F.A.Finished, F.A.Begun, F.LeaseActive; }

  lemma EnterMoves(s: F.State, i: nat, ok: bool)
    requires i < |s.calls| && s.calls[i].phase == F.Entering && !s.calls[i].ioLease
    ensures OneMoves(s, F.Entered(s, i, ok), F.Enter(i, ok), i)
  {
    if ok && s.current.Some? && F.GateActive(s, s.current.value) {
      var c := s.calls[i].(lease := Some(F.GateLease(s.current.value, s.session.epoch, s.session.runGeneration)));
      BodyEffect(F.Logged(F.Put(s, i, c), F.Took(i, F.Gate)), i);
    }
    hide F.Body, F.LeaseActive, F.A.Finished;
  }

  lemma AnswerMoves(s: F.State, i: nat, ok: bool)
    requires i < |s.calls| && s.calls[i].phase == F.AwaitingIoLease && !s.calls[i].ioLease
    ensures OneMoves(s, F.IoLeaseAnswered(s, i, ok), F.IoLeaseAnswers(i, ok), i)
  {
    BodyEffect(F.Logged(F.Put(s, i, s.calls[i].(ioLease := true)), F.Took(i, F.IoLease)), i);
    hide F.Body, F.A.Finished;
  }

  lemma StepMoves(s: F.State, e: F.Event)
    requires T.Inv(s)
    ensures AllMove(s, F.Step(s, e), e)
  {
    var t := F.Step(s, e);
    if !F.Enabled(s, e) || T.Target(e).None? {
      forall i: nat | i < |s.calls|
        ensures t.calls[i] == s.calls[i] && (s.calls[i].phase == F.AwaitingIoLease ==> !s.calls[i].ioLease)
      {
        assert T.CallOk(s.calls[i]);
      }
      hide T.Inv;
    } else {
      OwnMoves(s, e, T.Target(e).value);
      OneIsAll(s, t, e, T.Target(e).value);
    }
  }

  lemma OwnMoves(s: F.State, e: F.Event, i: nat)
    requires T.Inv(s) && T.Target(e) == Some(i) && F.Enabled(s, e)
    ensures OneMoves(s, F.Step(s, e), e, i)
  {
    assert T.CallOk(s.calls[i]);
    hide T.Inv;
    var bad := if s.calls[i].kind == F.Write then F.A.Unknown else F.A.Failed;
    match e
    case Enter(_, ok) => EnterMoves(s, i, ok);
    case IoLeaseAnswers(_, ok) => AnswerMoves(s, i, ok);
    case BodyEnds(_, _) => LeavingMoves(s, e, i, F.Failed, bad);
    case AuthorityAnswers(_, ok) =>
      LeavingMoves(s, e, i, F.Succeeded, F.A.Completed);
      LeavingMoves(s, e, i, F.Failed, bad);
    case _ =>
    hide F.Entered, F.IoLeaseAnswered, F.Leaving, F.Audited, F.LeaseActive, F.LocalLockReplaced,
      F.OwnerTransitionReplaced;
  }

  // ----------------------------------------------------- what a turn does to the leases

  lemma {:induction false} AcquiresQueued(queue: seq<L.Operation>, o: L.Operation)
    ensures Acquires(queue + [o]) == Acquires(queue) + (if o.Acquire? then 1 else 0)
  {
    if queue != [] {
      AcquiresQueued(queue[1..], o);
      assert (queue + [o])[1..] == queue[1..] + [o];
    }
  }

  /** A lease given back: it alone becomes released. */
  lemma ReturnedOnly(l: L.State, h: Held)
    requires L.Inv(l)
    requires match h
             case ReadHandle(x) => x < |l.handles| && !l.handles[x].released
             case WriteLease(x) => x < |l.writes| && !l.writes[x].released
    ensures var m := Returned(l, h);
            && L.Inv(m) && |m.handles| == |l.handles| && |m.writes| == |l.writes|
            && (forall x: nat :: x < |l.handles| ==>
              (m.handles[x].released <==> l.handles[x].released || h == ReadHandle(x)))
            && (forall x: nat :: x < |l.writes| ==>
              (m.writes[x].released <==> l.writes[x].released || h == WriteLease(x)))
            && Acquires(m.queue) == Acquires(l.queue)
  {
    match h {
      case ReadHandle(x) =>
        L.StepKeepsInv(l, L.ReleaseRead(x));
        AcquiresQueued(l.queue, L.Release(l.handles[x].group));
      case WriteLease(x) =>
        L.StepKeepsInv(l, L.ReleaseWrite(x));
        assert l.writes[x] in l.writes;
    }
    hide L.EntriesOk, L.RecordsOk, L.CountsOk, L.SharedOk;
  }

  predicate StartsWaiting(c: F.Call, d: F.Call) {
    d.phase == F.AwaitingIoLease && c.phase != F.AwaitingIoLease && d.kind == F.Read
  }

  /** The calls with call `i` still where it was. */
  function Still(calls: seq<F.Call>, i: nat, c: F.Call): seq<F.Call>
    requires i < |calls|
  {
    calls[i := calls[i].(phase := c.phase)]
  }

  /** Completing the step of call `i`. */
  lemma AfterKeeps(s: System, before: F.State, i: nat)
    requires T.Inv(s.io) && L.Inv(s.leases) && i < |s.io.calls| && i < |before.calls|
    requires var c, d := before.calls[i], s.io.calls[i];
             && (T.Leaves(c) ==> T.Leaves(d)) && (d.phase == F.AwaitingIoLease ==> !d.ioLease)
             && HoldersOk(Still(s.io.calls, i, c), s.held, s.leases) && AllOwned(s.held, s.leases)
             && WaitingOk(if StartsWaiting(c, d) then Still(s.io.calls, i, c)
               else s.io.calls, s.waiting, s.leases.queue)
    ensures Inv(After(s, before, i))
  {
    hide T.Inv, L.Inv, AllOwned, WaitingOk, L.Step, Returned;
    var c, d := before.calls[i], s.io.calls[i];
    var still := Still(s.io.calls, i, c);
    assert still[i].ioLease == d.ioLease && still[i].kind == d.kind && T.Leaves(still[i]) == T.Leaves(c);
    if StartsWaiting(c, d) { AskingKeeps(s, before, i); }
    else if T.Leaves(d) && !T.Leaves(c) && i in s.held { ReturningKeeps(s, before, i); }
    else {
      assert T.Leaves(c) == T.Leaves(d) || i !in s.held;
      forall j | j in s.held ensures j < |s.io.calls| && HeldOk(s.io.calls[j], s.held[j], s.leases) {
        assert HeldOk(still[j], s.held[j], s.leases);
      }
      forall j: nat | j < |s.io.calls| ensures s.io.calls[j].ioLease <==> j in s.held {
        assert still[j].ioLease <==> j in s.held;
      }
    }
  }

  lemma AfterAsks(s: System, before: F.State, i: nat)
    requires i < |s.io.calls| && i < |before.calls| && StartsWaiting(before.calls[i], s.io.calls[i])
    ensures After(s, before, i) ==
        s.(leases := s.leases.(queue := s.leases.queue + [L.Acquire]), waiting := s.waiting + [i])
    ensures L.Step(s.leases, L.CallRead) == s.leases.(queue := s.leases.queue + [L.Acquire])
  { }

  lemma AskingKeeps(s: System, before: F.State, i: nat)
    requires T.Inv(s.io) && L.Inv(s.leases) && i < |s.io.calls| && i < |before.calls|
    requires var c, d := before.calls[i], s.io.calls[i];
             && StartsWaiting(c, d) && !d.ioLease
             && HoldersOk(Still(s.io.calls, i, c), s.held, s.leases) && AllOwned(s.held, s.leases)
             && WaitingOk(Still(s.io.calls, i, c), s.waiting, s.leases.queue)
    ensures Inv(After(s, before, i))
  {
    hide T.Inv, L.Inv, L.Step, After, Acquires;
    var still := Still(s.io.calls, i, before.calls[i]);
    assert !Waits(still[i]);
    assert still[i].ioLease <==> i in s.held;
    L.StepKeepsInv(s.leases, L.CallRead);
    AcquiresQueued(s.leases.queue, L.Acquire);
    AfterAsks(s, before, i);
    var t := After(s, before, i);
    forall j | j in t.held ensures j < |t.io.calls| && HeldOk(t.io.calls[j], t.held[j], t.leases) {
      assert HeldOk(still[j], s.held[j], s.leases);
    }
    forall j: nat | j < |t.io.calls| ensures t.io.calls[j].ioLease <==> j in t.held {
      assert still[j].ioLease <==> j in s.held;
    }
    forall j: nat | j < |t.io.calls| && Waits(t.io.calls[j]) ensures j in t.waiting {
      if j != i { assert Waits(still[j]); }
    }
    forall j | j in t.waiting ensures j < |t.io.calls| && Waits(t.io.calls[j]) { if j != i { assert Waits(still[j]); } }
  }

  lemma ReturningKeeps(s: System, before: F.State, i: nat)
    requires T.Inv(s.io) && L.Inv(s.leases) && i < |s.io.calls| && i < |before.calls|
    requires var c, d := before.calls[i], s.io.calls[i];
             && T.Leaves(d) && !T.Leaves(c) && i in s.held
             && HoldersOk(Still(s.io.calls, i, c), s.held, s.leases) && AllOwned(s.held, s.leases)
             && WaitingOk(s.io.calls, s.waiting, s.leases.queue)
    ensures Inv(After(s, before, i))
  {
    hide T.Inv, L.Inv, L.Step, Returned, After, Acquires, Owned, Waits;
    assert HeldOk(Still(s.io.calls, i, before.calls[i])[i], s.held[i], s.leases);
    ReturnedOnly(s.leases, s.held[i]);
    HoldersAfterReturn(s.io.calls, before.calls[i], s.held, s.leases, Returned(s.leases, s.held[i]), i);
    AfterReturns(s, before, i);
    hide HoldersOk, HeldOk, Still, T.Leaves;
  }

  lemma AfterReturns(s: System, before: F.State, i: nat)
    requires i < |s.io.calls| && i < |before.calls| && T.Leaves(s.io.calls[i]) && !T.Leaves(before.calls[i])
        && i in s.held
    ensures After(s, before, i) == s.(leases := Returned(s.leases, s.held[i]))
  { hide Returned, L.Step; }

  lemma HoldersAfterReturn(calls: seq<F.Call>, c: F.Call, held: map<nat, Held>, l: L.State, m: L.State, i: nat)
    requires i < |calls| && i in held && T.Leaves(calls[i]) && !T.Leaves(c) && HoldersOk(Still(calls, i, c), held, l)
    requires |m.handles| == |l.handles| && |m.writes| == |l.writes|
    requires forall x: nat :: x < |l.handles| ==>
        (m.handles[x].released <==> l.handles[x].released || held[i] == ReadHandle(x))
    requires forall x: nat :: x < |l.writes| ==>
        (m.writes[x].released <==> l.writes[x].released || held[i] == WriteLease(x))
    ensures HoldersOk(calls, held, m)
  {
    var still := Still(calls, i, c);
    hide HeldOk;
    forall j | j in held ensures j < |calls| && HeldOk(calls[j], held[j], m) {
      assert HeldOk(still[j], held[j], l) && (j != i ==> held[j] != held[i] && still[j] == calls[j]);
      HeldAfterReturn(still[j], calls[j], held[j], l, m, held[i]);
    }
    forall j: nat | j < |calls| ensures calls[j].ioLease <==> j in held { assert still[j].ioLease <==> j in held; }
  }

  /** The holder of the returned lease has left; every other lease is as it was. */
  lemma HeldAfterReturn(c: F.Call, d: F.Call, own: Held, l: L.State, m: L.State, h: Held)
    requires HeldOk(c, own, l) && d.kind == c.kind
    requires if own == h then T.Leaves(d) && !T.Leaves(c) else T.Leaves(d) == T.Leaves(c)
    requires |m.handles| == |l.handles| && |m.writes| == |l.writes|
    requires forall x: nat :: x < |l.handles| ==>
        (m.handles[x].released <==> l.handles[x].released || h == ReadHandle(x))
    requires forall x: nat :: x < |l.writes| ==> (m.writes[x].released <==> l.writes[x].released || h == WriteLease(x))
    ensures HeldOk(d, own, m)
  { }

  // ---------------------------------------------------------------- every step

  lemma IoKeeps(s: System, f: F.Event)
    requires Inv(s) && !f.IoLeaseAnswers?
    ensures Inv(Step(s, Io(f)))
  {
    var s1 := s.(io := F.Step(s.io, f));
    T.StepKeepsInv(s.io, f);
    StepMoves(s.io, f);
    hide T.Inv, L.Inv, F.Step;
    match T.Target(f)
    case None => NewCallsKeep(s, s1, f);
    case Some(i) =>
      if i < |s.io.calls| { OldCallsKeep(s, s1, f, i); AfterKeeps(s1, s.io, i); }
      else { NewCallsKeep(s, s1, f); }
  }

  lemma NewCallsKeep(s: System, t: System, f: F.Event)
    requires Inv(s) && t == s.(io := t.io) && T.Inv(t.io) && AllMove(s.io, t.io, f) && !f.IoLeaseAnswers?
    requires T.Target(f).None? || T.Target(f).value >= |s.io.calls|
    ensures Inv(t)
  {
    hide T.Inv, L.Inv, AllOwned;
    forall j: nat | j < |s.io.calls| ensures t.io.calls[j] == s.io.calls[j] {
      assert CallMoves(s.io.calls[j], t.io.calls[j], j, f);
    }
  }

  lemma OldCallsKeep(s: System, t: System, f: F.Event, i: nat)
    requires Inv(s) && t == s.(io := t.io) && AllMove(s.io, t.io, f) && !f.IoLeaseAnswers?
    requires T.Target(f) == Some(i) && i < |s.io.calls|
    ensures var c, d := s.io.calls[i], t.io.calls[i];
            && (T.Leaves(c) ==> T.Leaves(d)) && (d.phase == F.AwaitingIoLease ==> !d.ioLease)
            && HoldersOk(Still(t.io.calls, i, c), t.held, t.leases)
            && WaitingOk(if StartsWaiting(c, d) then Still(t.io.calls, i, c) else t.io.calls, t.waiting, t.leases.queue)
  {
    hide T.Inv, L.Inv, AllOwned;
    var still := Still(t.io.calls, i, s.io.calls[i]);
    forall j: nat | j < |s.io.calls| ensures CallMoves(s.io.calls[j], t.io.calls[j], j, f) { }
    forall j: nat | j < |s.io.calls| && j != i ensures t.io.calls[j] == s.io.calls[j] == still[j] {
      assert CallMoves(s.io.calls[j], t.io.calls[j], j, f);
    }
    assert CallMoves(s.io.calls[i], t.io.calls[i], i, f);
    forall j | j in s.held ensures HeldOk(still[j], s.held[j], s.leases) {
      assert HeldOk(s.io.calls[j], s.held[j], s.leases);
    }
  }

  /** The answer of an acquire reaches its call: `got` is given out and not yet held. */
  lemma AnsweredKeeps(s: System, i: nat, got: Option<Held>)
    requires T.Inv(s.io) && L.Inv(s.leases) && i < |s.io.calls| && s.io.calls[i].phase == F.AwaitingIoLease
        && i !in s.held
    requires HoldersOk(s.io.calls, s.held, s.leases)
    requires got.Some? ==> HeldOk(s.io.calls[i], got.value, s.leases) && !Owned(s.held, got.value)
    requires AllOwned(if got.Some? then s.held[i := got.value] else s.held, s.leases)
    requires WaitingOk(s.io.calls[i := s.io.calls[i].(phase := F.Running)], s.waiting, s.leases.queue)
    ensures Inv(Answered(s, i, got))
  {
    var e := F.IoLeaseAnswers(i, got.Some?);
    T.StepKeepsInv(s.io, e);
    StepMoves(s.io, e);
    hide T.Inv, L.Inv, L.Step, F.Step, AllOwned, After, Owned;
    var t := F.Step(s.io, e);
    var held := if got.Some? then s.held[i := got.value] else s.held;
    var s1 := s.(io := t, held := held);
    assert CallMoves(s.io.calls[i], t.calls[i], i, e);
    forall j: nat | j < |s.io.calls| && j != i ensures t.calls[j] == s.io.calls[j] {
      assert CallMoves(s.io.calls[j], t.calls[j], j, e);
    }
    AnsweredHolders(s, t.calls, i, got);
    AnsweredWaiting(s, t.calls, i);
    AfterKeeps(s1, s.io, i);
  }

  lemma AnsweredHolders(s: System, calls: seq<F.Call>, i: nat, got: Option<Held>)
    requires i < |s.io.calls| == |calls| && s.io.calls[i].phase == F.AwaitingIoLease && i !in s.held
    requires HoldersOk(s.io.calls, s.held, s.leases)
    requires got.Some? ==> HeldOk(s.io.calls[i], got.value, s.leases) && !Owned(s.held, got.value)
    requires forall j: nat :: j < |calls| && j != i ==> calls[j] == s.io.calls[j]
    requires calls[i].kind == s.io.calls[i].kind && (calls[i].ioLease <==> got.Some?)
    ensures HoldersOk(Still(calls, i, s.io.calls[i]), if got.Some? then s.held[i := got.value] else s.held, s.leases)
  {
    var still := Still(calls, i, s.io.calls[i]);
    var held := if got.Some? then s.held[i := got.value] else s.held;
    forall j | j in held ensures j < |still| && HeldOk(still[j], held[j], s.leases) {
      if j != i { assert HeldOk(s.io.calls[j], s.held[j], s.leases) && still[j] == s.io.calls[j]; }
    }
    forall j: nat | j < |still| ensures still[j].ioLease <==> j in held {
      if j != i { assert still[j] == s.io.calls[j]; }
    }
  }

  lemma AnsweredWaiting(s: System, calls: seq<F.Call>, i: nat)
    requires i < |s.io.calls| == |calls|
    requires WaitingOk(s.io.calls[i := s.io.calls[i].(phase := F.Running)], s.waiting, s.leases.queue)
    requires forall j: nat :: j < |calls| && j != i ==> calls[j] == s.io.calls[j]
    requires calls[i].phase != F.AwaitingIoLease
    ensures WaitingOk(calls, s.waiting, s.leases.queue)
  {
    var running := s.io.calls[i := s.io.calls[i].(phase := F.Running)];
    forall j | j in s.waiting ensures j < |calls| && Waits(calls[j]) { assert Waits(running[j]); }
    forall j: nat | j < |calls| && Waits(calls[j]) ensures j in s.waiting { assert Waits(running[j]); }
    hide Acquires;
  }

  lemma AwaitingHoldsNothing(s: System, i: nat)
    requires Inv(s) && i < |s.io.calls| && s.io.calls[i].phase == F.AwaitingIoLease
    ensures i !in s.held && !T.Leaves(s.io.calls[i])
  {
    assert T.CallOk(s.io.calls[i]);
    hide L.Inv;
  }

  lemma WriteKeeps(s: System, i: nat, current: bool)
    requires Inv(s) && i < |s.io.calls| && s.io.calls[i].phase == F.AwaitingIoLease && s.io.calls[i].kind == F.Write
    ensures Inv(WriteAnswered(s, i, current))
  {
    hide T.Inv, L.Inv, L.Step;
    AwaitingHoldsNothing(s, i);
    L.StepKeepsInv(s.leases, L.AcquireWrite(current));
    var l := L.Step(s.leases, L.AcquireWrite(current));
    WriteEffect(s.leases, current);
    var n := |s.leases.writes|;
    var got := if |l.writes| > n then Some(WriteLease(n)) else None;
    forall j | j in s.held ensures HeldOk(s.io.calls[j], s.held[j], l) && s.held[j] != WriteLease(n) {
      assert HeldOk(s.io.calls[j], s.held[j], s.leases);
    }
    var held := if got.Some? then s.held[i := got.value] else s.held;
    if got.Some? { assert i in held && held[i] == got.value; }
    OwnersStay(s.held, held, s.leases, l, got);
    WaitersStay(s.io.calls, s.waiting, s.leases.queue, i);
    AnsweredKeeps(s.(leases := l), i, got);
    hide Answered;
  }

  lemma WriteEffect(l: L.State, current: bool)
    ensures var m := L.Step(l, L.AcquireWrite(current));
            && m.handles == l.handles && m.queue == l.queue
            && (m.writes == l.writes || (|m.writes| == |l.writes| + 1 && m.writes[..|l.writes|] == l.writes
              && !m.writes[|l.writes|].released))
  { }

  /** What was owned stays owned, and the new lease gets an owner. */
  lemma OwnersStay(held: map<nat, Held>, after: map<nat, Held>, l: L.State, m: L.State, got: Option<Held>)
    requires AllOwned(held, l) && (forall i :: i in held ==> i in after && after[i] == held[i])
    requires got.Some? ==> Owned(after, got.value)
    requires |m.handles| <= |l.handles| || (|m.handles| == |l.handles| + 1 && got == Some(ReadHandle(|l.handles|)))
    requires |m.writes| <= |l.writes| || (|m.writes| == |l.writes| + 1 && got == Some(WriteLease(|l.writes|)))
    ensures AllOwned(after, m)
  {
    forall h | Owned(held, h) ensures Owned(after, h) {
      var i :| i in held && held[i] == h;
      assert after[i] == h;
    }
  }

  /** A call that is not in the waiting line may go on. */
  lemma WaitersStay(calls: seq<F.Call>, waiting: seq<nat>, queue: seq<L.Operation>, i: nat)
    requires WaitingOk(calls, waiting, queue) && i < |calls| && !Waits(calls[i])
    ensures WaitingOk(calls[i := calls[i].(phase := F.Running)], waiting, queue)
  {
    var running := calls[i := calls[i].(phase := F.Running)];
    forall j | j in waiting ensures j < |running| && Waits(running[j]) { assert Waits(calls[j]); }
    forall j: nat | j < |running| && Waits(running[j]) ensures j in waiting { assert Waits(calls[j]); }
    hide Acquires;
  }

  /** A turn of the mutex: at most the head leaves the queue, and an acquire may yield a handle. */
  lemma TurnEffect(l: L.State, e: L.Event)
    requires L.Inv(l) && (e.RunNext? || e.Resume?)
    ensures var m := L.Step(l, e);
            && m.writes == l.writes
            && (m.queue == l.queue || (l.queue != [] && m.queue == l.queue[1..]))
            && (m.handles == l.handles ||
                (|m.handles| == |l.handles| + 1 && m.handles[..|l.handles|] == l.handles
                  && !m.handles[|l.handles|].released
                 && l.queue != [] && l.queue[0].Acquire? && m.queue == l.queue[1..]))
  {
    hide L.EntriesOk, L.RecordsOk, L.CountsOk;
  }

  lemma MutexKeeps(s: System, e: L.Event)
    requires Inv(s) && (e.RunNext? || e.Resume?)
    ensures Inv(MutexMoved(s, e))
  {
    L.StepKeepsInv(s.leases, e);
    TurnEffect(s.leases, e);
    var l := L.Step(s.leases, e);
    if s.leases.queue != [] && s.leases.queue[0].Acquire? && |l.queue| < |s.leases.queue| { HeadAnswers(s, e); }
    else { NobodyAnswers(s, e); }
  }

  lemma NobodyAnswers(s: System, e: L.Event)
    requires Inv(s) && L.Inv(L.Step(s.leases, e))
    requires var l := L.Step(s.leases, e);
             && l.writes == s.leases.writes && l.handles == s.leases.handles
             && (l.queue == s.leases.queue
               || (s.leases.queue != [] && !s.leases.queue[0].Acquire? && l.queue == s.leases.queue[1..]))
    ensures MutexMoved(s, e) == s.(leases := L.Step(s.leases, e)) && Inv(MutexMoved(s, e))
  {
    hide T.Inv, L.Inv, L.Step;
    var l := L.Step(s.leases, e);
    forall j | j in s.held ensures HeldOk(s.io.calls[j], s.held[j], l) {
      assert HeldOk(s.io.calls[j], s.held[j], s.leases);
    }
  }

  lemma HeadAnswers(s: System, e: L.Event)
    requires Inv(s) && L.Inv(L.Step(s.leases, e))
    requires var l := L.Step(s.leases, e);
             && s.leases.queue != [] && s.leases.queue[0].Acquire? && l.queue == s.leases.queue[1..]
               && l.writes == s.leases.writes
             && (l.handles == s.leases.handles ||
                 (|l.handles| == |s.leases.handles| + 1 && l.handles[..|s.leases.handles|] == s.leases.handles
                  && !l.handles[|s.leases.handles|].released))
    ensures Inv(MutexMoved(s, e))
  {
    hide T.Inv, L.Inv, L.Step, MutexMoved;
    assert s.waiting != [];
    var i := s.waiting[0];
    assert i in s.waiting && Waits(s.io.calls[i]);
    AwaitingHoldsNothing(s, i);
    var l := L.Step(s.leases, e);
    var n := |s.leases.handles|;
    var got := if |l.handles| > n then Some(ReadHandle(n)) else None;
    forall j | j in s.held ensures HeldOk(s.io.calls[j], s.held[j], l) && s.held[j] != ReadHandle(n) {
      assert HeldOk(s.io.calls[j], s.held[j], s.leases);
    }
    var held := if got.Some? then s.held[i := got.value] else s.held;
    if got.Some? { assert i in held && held[i] == got.value; }
    OwnersStay(s.held, held, s.leases, l, got);
    FirstWaiterGoes(s.io.calls, s.waiting, s.leases.queue);
    AnsweredKeeps(s.(leases := l, waiting := s.waiting[1..]), i, got);
    MovedAnswers(s, e, got);
    hide Answered, HoldersOk, AllOwned, WaitingOk;
  }

  lemma MovedAnswers(s: System, e: L.Event, got: Option<Held>)
    requires s.leases.queue != [] && s.leases.queue[0].Acquire? && s.waiting != []
    requires var l, n := L.Step(s.leases, e), |s.leases.handles|;
             |l.queue| < |s.leases.queue| && got == if |l.handles| > n then Some(ReadHandle(n)) else None
    ensures MutexMoved(s, e) == Answered(s.(leases := L.Step(s.leases, e), waiting := s.waiting[1..]), s.waiting[0],
        got)
  { hide Answered, L.Step; }

  lemma FirstWaiterGoes(calls: seq<F.Call>, waiting: seq<nat>, queue: seq<L.Operation>)
    requires WaitingOk(calls, waiting, queue) && waiting != [] && queue != [] && queue[0].Acquire?
    ensures waiting[0] < |calls|
    ensures WaitingOk(calls[waiting[0] := calls[waiting[0]].(phase := F.Running)], waiting[1..], queue[1..])
  {
    var i := waiting[0];
    assert i in waiting;
    var running := calls[i := calls[i].(phase := F.Running)];
    assert waiting == [i] + waiting[1..];
    forall j | j in waiting[1..] ensures j < |running| && Waits(running[j]) { assert j in waiting && j != i; }
    forall j: nat | j < |running| && Waits(running[j]) ensures j in waiting[1..] { assert Waits(calls[j]); }
  }

  lemma ClaimKeeps(s: System)
    requires Inv(s)
    ensures Inv(s.(leases := L.Step(s.leases, L.Claim)))
  {
    L.StepKeepsInv(s.leases, L.Claim);
    var l := L.Step(s.leases, L.Claim);
    hide T.Inv, L.Inv;
    forall j | j in s.held ensures HeldOk(s.io.calls[j], s.held[j], l) {
      assert HeldOk(s.io.calls[j], s.held[j], s.leases);
    }
  }

  lemma StepKeepsInv(s: System, e: Event)
    requires Inv(s)
    ensures Inv(Step(s, e))
  {
    if Enabled(s, e) {
      match e
      case Io(f) => IoKeeps(s, f);
      case WriteAnswers(i, current) => WriteKeeps(s, i, current);
      case Mutex(l) => MutexKeeps(s, l);
      case Claim => ClaimKeeps(s);
    }
    hide Inv, WriteAnswered, MutexMoved, After, L.Step, F.Step;
  }

  lemma {:induction false} RunKeepsInv(session: F.Session, es: seq<Event>)
    ensures Inv(Run(session, es))
  {
    if es != [] {
      RunKeepsInv(session, es[..|es| - 1]);
      StepKeepsInv(Run(session, es[..|es| - 1]), es[|es| - 1]);
      hide Inv, Step;
    } else {
      assert T.Inv(F.Initial(session)) && L.Inv(L.Initial());
    }
  }

  // ---------------------------------------------------------------- theorems

  /** While the body of a call with a durable lease runs, and until its authority is confirmed, the
      record that the lease was taken on keeps the lease's entry. */
  lemma BodyIsCovered(session: F.Session, es: seq<Event>, i: nat)
    requires var s := Run(session, es);
             && i < |s.io.calls| && s.io.calls[i].options.durable
             && (s.io.calls[i].phase == F.Running || s.io.calls[i].phase == F.Confirming)
    ensures var s := Run(session, es);
            && i in s.held
            && match s.held[i]
               case ReadHandle(h) =>
                 && s.io.calls[i].kind == F.Read && h < |s.leases.handles| && !s.leases.handles[h].released
                 && var g := s.leases.handles[h].group;
                    && g < |s.leases.groups| && s.leases.groups[g].record < |s.leases.records|
                    && s.leases.groups[g].entry in s.leases.records[s.leases.groups[g].record].leases
               case WriteLease(w) =>
                 && s.io.calls[i].kind == F.Write && w < |s.leases.writes| && !s.leases.writes[w].released
                 && s.leases.writes[w].record < |s.leases.records|
                 && s.leases.writes[w].entry in s.leases.records[s.leases.writes[w].record].leases
  {
    RunKeepsInv(session, es);
    var s := Run(session, es);
    hide Run;
    assert T.CallOk(s.io.calls[i]);
    assert HeldOk(s.io.calls[i], s.held[i], s.leases);
    hide T.Inv;
    match s.held[i]
    case ReadHandle(h) => L.HandleCovers(s.leases, h);
    case WriteLease(w) => L.WriteCovers(s.leases, w);
    hide L.Inv;
  }

  /** Call `i` was given this lease, which is released exactly if the call has left its body behind. */
  ghost predicate GivenTo(s: System, h: Held, released: bool, i: nat) {
    i < |s.io.calls| && i in s.held && s.held[i] == h && (released <==> T.Leaves(s.io.calls[i]))
  }

  ghost predicate Assigned(s: System, h: Held, released: bool) { exists i: nat :: GivenTo(s, h, released, i) }

  /** Every lease that was ever given out was given to one call, and no call shares its handle: the
      lease is released exactly when that call has left its body behind. */
  lemma EachLeaseHasItsCall(session: F.Session, es: seq<Event>)
    ensures var s := Run(session, es);
            && (forall h: nat :: h < |s.leases.handles| ==> Assigned(s, ReadHandle(h), s.leases.handles[h].released))
            && (forall w: nat :: w < |s.leases.writes| ==> Assigned(s, WriteLease(w), s.leases.writes[w].released))
            && (forall i, j :: i in s.held && j in s.held && i != j ==> s.held[i] != s.held[j])
  {
    RunKeepsInv(session, es);
    var s := Run(session, es);
    hide Run, T.Inv, L.Inv;
    forall h: nat | h < |s.leases.handles| ensures Assigned(s, ReadHandle(h), s.leases.handles[h].released) {
      assert Owned(s.held, ReadHandle(h));
      var i :| i in s.held && s.held[i] == ReadHandle(h);
      assert HeldOk(s.io.calls[i], s.held[i], s.leases);
      assert GivenTo(s, ReadHandle(h), s.leases.handles[h].released, i);
    }
    forall w: nat | w < |s.leases.writes| ensures Assigned(s, WriteLease(w), s.leases.writes[w].released) {
      assert Owned(s.held, WriteLease(w));
      var i :| i in s.held && s.held[i] == WriteLease(w);
      assert HeldOk(s.io.calls[i], s.held[i], s.leases);
      assert GivenTo(s, WriteLease(w), s.leases.writes[w].released, i);
    }
  }

  /** When every call is over and the mutex is idle, no record keeps an entry and nothing is shared. */
  lemma AllOverIsEmpty(session: F.Session, es: seq<Event>)
    requires var s := Run(session, es); s.leases.queue == [] && forall i: nat :: i < |s.io.calls| ==>
        s.io.calls[i].phase.Done?
    ensures var l := Run(session, es).leases; l.shared == None && forall r :: 0 <= r < |l.records| ==>
        l.records[r].leases == {}
  {
    RunKeepsInv(session, es);
    EachLeaseHasItsCall(session, es);
    var s := Run(session, es);
    hide Run, T.Inv, HoldersOk, AllOwned, WaitingOk;
    forall h | h in s.leases.handles ensures h.released {
      var k: nat :| k < |s.leases.handles| && s.leases.handles[k] == h;
    }
    forall w | w in s.leases.writes ensures w.released {
      var k: nat :| k < |s.leases.writes| && s.leases.writes[k] == w;
    }
    hide L.Inv;
    L.NothingHeldIsEmpty(s.leases);
  }
}
