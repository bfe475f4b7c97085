/** What the final I/O wrapper keeps over every run of concurrent calls. */
module FinalIoTheorems {
  import opened Prelude
  import opened FinalIo
  import A = FinalIoAudit

  /** One resource of one call; `Broken` is a second take, a second return, or a return without a take. */
  datatype Life = Untaken | Held | Returned | Broken

  function LifeOf(log: seq<Happening>, call: nat, what: Resource): Life {
    if log == [] then Untaken
    else
      var l := LifeOf(log[..|log| - 1], call, what);
      match log[|log| - 1]
      case Took(i, w) => if i == call && w == what then (if l == Untaken then Held else Broken) else l
      case Gave(i, w) => if i == call && w == what then (if l == Held then Returned else Broken) else l
  }

  predicate Leaves(c: Call) { c.phase.Releasing? || c.phase.Done? }

  function Expected(c: Call, what: Resource): Life {
    match what
    case Admission => if !c.admitted then Untaken else if c.phase.Done? then Returned else Held
    case Gate => if c.lease.None? then Untaken else if c.phase.Done? then Returned else Held
    case IoLease => if !c.ioLease then Untaken else if Leaves(c) then Returned else Held
    case Audit => if c.audit.None? then Untaken else if Leaves(c) then Returned else Held
  }

  // --------------------------------------------------------------- invariant

  /** Which local variables are set in each phase. */
  predicate CallOk(c: Call) {
    match c.phase
    case AwaitingAdmission => !c.admitted && c.lease.None? && !c.ioLease && c.audit.None?
    case Entering => c.admitted && c.lease.None? && !c.ioLease && c.audit.None?
    case AwaitingIoLease => c.admitted && c.lease.Some? && !c.ioLease && c.audit.None? && c.options.durable
    case Running => c.admitted && c.lease.Some? && c.ioLease == c.options.durable
      && (c.audit.Some? <==> c.options.audit.Some?)
    case Confirming => c.admitted && c.lease.Some? && c.ioLease == c.options.durable
      && (c.audit.Some? <==> c.options.audit.Some?)
    case Releasing(_) => c.admitted && c.lease.Some?
    case Done(_) => true
  }

  predicate CallsOk(calls: seq<Call>, but: Option<nat>) {
    forall i: nat :: i < |calls| && but != Some(i) ==> CallOk(calls[i])
  }

  predicate LogOk(log: seq<Happening>, n: nat) { forall h :: h in log ==> h.call < n }

  predicate LivesOk(calls: seq<Call>, log: seq<Happening>) {
    forall i: nat, w: Resource :: i < |calls| ==> LifeOf(log, i, w) == Expected(calls[i], w)
  }

  /** A call's handle is open until the call leaves; a write is then unknown or completed, never
      failed, and a read never unknown. */
  predicate AuditOk(c: Call, handles: seq<A.Handle>) {
    c.audit.Some? ==>
      && c.audit.value < |handles|
      && Some(handles[c.audit.value].operation) == c.options.audit
      && (var o := handles[c.audit.value].outcome;
          if Leaves(c) then o.Some? && o != Some(if c.kind == Write then A.Failed else A.Unknown) else o.None?)
  }

  ghost predicate AuditsOk(calls: seq<Call>, handles: seq<A.Handle>) {
    && (forall i: nat :: i < |calls| ==> AuditOk(calls[i], handles))
    && (forall i: nat, j: nat :: i < j < |calls| && calls[i].audit.Some? ==> calls[i].audit != calls[j].audit)
    && (forall h: nat :: h < |handles| ==> Owned(calls, h))
  }

  ghost predicate Owned(calls: seq<Call>, h: nat) { exists i: nat :: i < |calls| && calls[i].audit == Some(h) }

  ghost predicate InvBut(s: State, but: Option<nat>) {
    && CallsOk(s.calls, but)
    && LogOk(s.log, |s.calls|)
    && LivesOk(s.calls, s.log)
    && AuditsOk(s.calls, s.ledger.handles)
    && A.LedgerOk(s.ledger)
  }

  ghost predicate Inv(s: State) { InvBut(s, None) }

  // ------------------------------------------------------------------- lives

  function Lived(l: Life, h: Happening): Life {
    match h
    case Took(_, _) => if l == Untaken then Held else Broken
    case Gave(_, _) => if l == Held then Returned else Broken
  }

  lemma LifeAppend(log: seq<Happening>, h: Happening)
    ensures forall i: nat, w: Resource :: LifeOf(log + [h], i, w) ==
              (if h.call == i && h.what == w then Lived(LifeOf(log, i, w), h) else LifeOf(log, i, w))
  {
    assert (log + [h])[..|log|] == log;
  }

  lemma {:induction false} NothingYet(log: seq<Happening>, i: nat, w: Resource)
    requires LogOk(log, i)
    ensures LifeOf(log, i, w) == Untaken
  {
    if log != [] { NothingYet(log[..|log| - 1], i, w); }
  }

  function Through(l: Life, hs: seq<Happening>, what: Resource): Life
    decreases |hs|
  {
    if hs == [] then l else Through(if hs[0].what == what then Lived(l, hs[0]) else l, hs[1..], what)
  }

  lemma {:induction false} LivesThrough(log: seq<Happening>, hs: seq<Happening>, i: nat, k: nat, w: Resource)
    requires forall h :: h in hs ==> h.call == i
    ensures LifeOf(log + hs, k, w) == if k == i then Through(LifeOf(log, k, w), hs, w) else LifeOf(log, k, w)
    decreases |hs|
  {
    if hs == [] { assert log + hs == log; }
    else {
      LifeAppend(log, hs[0]);
      LivesThrough(log + [hs[0]], hs[1..], i, k, w);
      assert log + hs == log + [hs[0]] + hs[1..];
    }
  }

  /** Call `i` becomes `c` and appends happenings of its own. */
  lemma LivesStep(calls: seq<Call>, log: seq<Happening>, i: nat, c: Call, hs: seq<Happening>)
    requires LivesOk(calls, log) && LogOk(log, |calls|) && i < |calls|
    requires forall h :: h in hs ==> h.call == i
    requires forall w: Resource :: Expected(c, w) == Through(Expected(calls[i], w), hs, w)
    ensures LivesOk(calls[i := c], log + hs) && LogOk(log + hs, |calls|)
  {
    hide LifeOf, Through;
    forall k: nat, w: Resource | k < |calls| ensures LifeOf(log + hs, k, w) == Expected(calls[i := c][k], w) {
      LivesThrough(log, hs, i, k, w);
    }
  }

  // ------------------------------------------------------------------ audits

  /** Call `i` keeps its handle and the side of its leaving. */
  lemma AuditsStay(calls: seq<Call>, handles: seq<A.Handle>, i: nat, c: Call)
    requires AuditsOk(calls, handles) && i < |calls|
    requires c.audit == calls[i].audit && c.kind == calls[i].kind && c.options == calls[i].options
    requires c.audit.Some? ==> Leaves(c) == Leaves(calls[i])
    ensures AuditsOk(calls[i := c], handles)
  {
    var after := calls[i := c];
    forall k: nat | k < |after| ensures AuditOk(after[k], handles) { assert AuditOk(calls[k], handles); }
    forall a: nat, b: nat | a < b < |after| && after[a].audit.Some? ensures after[a].audit != after[b].audit {
      assert after[a].audit == calls[a].audit && after[b].audit == calls[b].audit;
    }
    forall h: nat | h < |handles| ensures Owned(after, h) {
      assert Owned(calls, h);
      var j: nat :| j < |calls| && calls[j].audit == Some(h);
      assert after[j].audit == Some(h);
    }
  }

  lemma AuditsBegin(calls: seq<Call>, handles: seq<A.Handle>, i: nat, c: Call)
    requires AuditsOk(calls, handles) && i < |calls| && calls[i].audit.None?
    requires c.audit == Some(|handles|) && c.options.audit.Some? && !Leaves(c)
    ensures AuditsOk(calls[i := c], handles + [A.Handle(c.options.audit.value, None)])
  {
    var after, more := calls[i := c], handles + [A.Handle(c.options.audit.value, None)];
    forall k: nat | k < |after| ensures AuditOk(after[k], more) { assert AuditOk(calls[k], handles); }
    forall a: nat, b: nat | a < b < |after| && after[a].audit.Some? ensures after[a].audit != after[b].audit {
      assert AuditOk(calls[a], handles) && AuditOk(calls[b], handles);
    }
    forall h: nat | h < |more| ensures Owned(after, h) {
      if h < |handles| {
        assert Owned(calls, h);
        var j: nat :| j < |calls| && calls[j].audit == Some(h);
        assert after[j].audit == Some(h);
      } else {
        assert after[i].audit == Some(h);
      }
    }
  }

  lemma AuditsFinish(calls: seq<Call>, handles: seq<A.Handle>, i: nat, c: Call, o: A.AuditOutcome)
    requires AuditsOk(calls, handles) && i < |calls| && calls[i].audit.Some? && !Leaves(calls[i])
    requires c.audit == calls[i].audit && c.kind == calls[i].kind && c.options == calls[i].options && Leaves(c)
    requires o != if c.kind == Write then A.Failed else A.Unknown
    ensures var h := c.audit.value;
            h < |handles| && handles[h].outcome.None?
              && AuditsOk(calls[i := c], handles[h := handles[h].(outcome := Some(o))])
  {
    assert AuditOk(calls[i], handles);
    var h := c.audit.value;
    var after, more := calls[i := c], handles[h := handles[h].(outcome := Some(o))];
    forall k: nat | k < |after| ensures AuditOk(after[k], more) { assert AuditOk(calls[k], handles); }
    forall a: nat, b: nat | a < b < |after| && after[a].audit.Some? ensures after[a].audit != after[b].audit {
      assert after[a].audit == calls[a].audit && after[b].audit == calls[b].audit;
    }
    forall x: nat | x < |more| ensures Owned(after, x) {
      assert Owned(calls, x);
      var j: nat :| j < |calls| && calls[j].audit == Some(x);
      assert after[j].audit == Some(x);
    }
  }

  // -------------------------------------------------------------- transitions

  lemma SettleKeeps(s: State, i: nat, outcome: Outcome)
    requires InvBut(s, Some(i)) && i < |s.calls| && !s.calls[i].phase.Done?
    requires s.calls[i].phase.Releasing? || (!s.calls[i].ioLease && s.calls[i].audit.None?)
    ensures Inv(Settled(s, i, outcome))
  {
    var c := s.calls[i];
    var hs := (if c.lease.Some? then [Gave(i, Gate)] else []) + (if c.admitted then [Gave(i, Admission)] else []);
    assert Settled(s, i, outcome).log == s.log + hs;
    SettleLife(c, i, outcome);
    hide LivesOk, AuditsOk, A.LedgerOk, LogOk;
    LivesStep(s.calls, s.log, i, c.(phase := Done(outcome)), hs);
    AuditsStay(s.calls, s.ledger.handles, i, c.(phase := Done(outcome)));
  }

  lemma SettleLife(c: Call, i: nat, outcome: Outcome)
    requires !c.phase.Done? && (c.phase.Releasing? || (!c.ioLease && c.audit.None?))
    ensures var hs := (if c.lease.Some? then [Gave(i, Gate)] else [])
        + (if c.admitted then [Gave(i, Admission)] else []);
            forall w: Resource :: Expected(c.(phase := Done(outcome)), w) == Through(Expected(c, w), hs, w)
  {
    forall w: Resource, l: Life, h: Happening ensures Through(l, [h], w) == (if h.what == w then Lived(l, h) else l) { }
    var a, b := Gave(i, Gate), Gave(i, Admission);
    forall w: Resource, l: Life
      ensures Through(l, [a, b], w) == (if w == Gate || w == Admission then Lived(l, a) else l)
    {
      assert [a, b][1..] == [b];
    }
    if c.lease.Some? && c.admitted { assert [a] + [b] == [a, b]; }
  }

  /** From here a call leaves: its audit is finished and its I/O lease released. */
  lemma LeaveKeeps(s: State, i: nat, outcome: Outcome, o: A.AuditOutcome)
    requires InvBut(s, Some(i)) && i < |s.calls| && !Leaves(s.calls[i]) && s.calls[i].lease.Some? && s.calls[i].admitted
    requires o != if s.calls[i].kind == Write then A.Failed else A.Unknown
    ensures Inv(Leaving(Audited(s, i, o), i, outcome))
  {
    var c := s.calls[i];
    var c1 := c.(phase := Releasing(outcome));
    var hs := (if c.audit.Some? then [Gave(i, Audit)] else []) + (if c.ioLease then [Gave(i, IoLease)] else []);
    LeaveLife(c, i, outcome);
    LivesStep(s.calls, s.log, i, c1, hs);
    match c.audit {
      case None => AuditsStay(s.calls, s.ledger.handles, i, c1);
      case Some(h) =>
        AuditsFinish(s.calls, s.ledger.handles, i, c1, o);
        A.FinishKeepsLedger(s.ledger, h, o);
    }
    var t := Leaving(Audited(s, i, o), i, outcome);
    assert t.log == s.log + hs;
    hide LivesOk, AuditsOk, A.LedgerOk, LogOk;
  }

  lemma LeaveLife(c: Call, i: nat, outcome: Outcome)
    requires !Leaves(c)
    ensures var hs := (if c.audit.Some? then [Gave(i, Audit)] else []) + (if c.ioLease then [Gave(i, IoLease)] else []);
            forall w: Resource :: Expected(c.(phase := Releasing(outcome)), w) == Through(Expected(c, w), hs, w)
  {
    forall w: Resource, l: Life, h: Happening ensures Through(l, [h], w) == (if h.what == w then Lived(l, h) else l) { }
    var a, b := Gave(i, Audit), Gave(i, IoLease);
    forall w: Resource, l: Life
      ensures Through(l, [a, b], w) == (if w == Audit || w == IoLease then Lived(l, a) else l)
    {
      assert [a, b][1..] == [b];
    }
    if c.audit.Some? && c.ioLease { assert [a] + [b] == [a, b]; }
  }

  lemma FailKeeps(s: State, i: nat)
    requires InvBut(s, Some(i)) && i < |s.calls| && !Leaves(s.calls[i]) && s.calls[i].lease.Some? && s.calls[i].admitted
    ensures Inv(Failing(s, i))
  {
    LeaveKeeps(s, i, Failed, if s.calls[i].kind == Write then A.Unknown else A.Failed);
  }

  /** Nothing, or the one resource of the happening, is taken. */
  predicate Takes(c: Call, d: Call, i: nat, hs: seq<Happening>) {
    && (hs == [] || hs == [Took(i, Admission)] || hs == [Took(i, Gate)] || hs == [Took(i, IoLease)])
    && (if hs == [Took(i, Admission)] then !c.admitted && d.admitted else d.admitted == c.admitted)
    && (if hs == [Took(i, Gate)] then c.lease.None? && d.lease.Some? else d.lease.Some? == c.lease.Some?)
    && (if hs == [Took(i, IoLease)] then !c.ioLease && d.ioLease else d.ioLease == c.ioLease)
  }

  /** A step that only moves the call on, or takes one resource. */
  lemma TakeKeeps(s: State, i: nat, c: Call, hs: seq<Happening>)
    requires InvBut(s, Some(i)) && i < |s.calls| && !Leaves(s.calls[i]) && !Leaves(c)
    requires c.audit == s.calls[i].audit && c.kind == s.calls[i].kind && c.options == s.calls[i].options
    requires Takes(s.calls[i], c, i, hs)
    ensures InvBut(Put(s, i, c).(log := s.log + hs), Some(i))
    ensures CallOk(c) ==> Inv(Put(s, i, c).(log := s.log + hs))
  {
    forall w: Resource, l: Life, h: Happening ensures Through(l, [h], w) == (if h.what == w then Lived(l, h) else l) { }
    LivesStep(s.calls, s.log, i, c, hs);
    AuditsStay(s.calls, s.ledger.handles, i, c);
    hide LivesOk, AuditsOk, A.LedgerOk, LogOk;
  }

  lemma BodyKeeps(s: State, i: nat)
    requires InvBut(s, Some(i)) && i < |s.calls|
    requires var c := s.calls[i];
             !Leaves(c) && c.admitted && c.lease.Some? && c.audit.None? && c.ioLease == c.options.durable
    ensures Inv(Body(s, i))
  {
    var c := s.calls[i];
    if !LeaseActive(s, c) { FailKeeps(s, i); }
    else if c.options.audit.None? {
      assert s.log + [] == s.log;
      TakeKeeps(s, i, c.(phase := Running), []);
    } else {
      BeginKeeps(s, i);
    }
    hide InvBut, Failing;
  }

  lemma BeginKeeps(s: State, i: nat)
    requires InvBut(s, Some(i)) && i < |s.calls|
    requires var c := s.calls[i];
             !Leaves(c) && c.admitted && c.lease.Some? && c.audit.None? && c.options.audit.Some?
               && c.ioLease == c.options.durable
    ensures var c := s.calls[i];
            Inv(Put(s, i, c.(phase := Running, audit := Some(|s.ledger.handles|))).(
              ledger := A.Begun(s.ledger, c.options.audit.value), log := s.log + [Took(i, Audit)]))
  {
    var c := s.calls[i].(phase := Running, audit := Some(|s.ledger.handles|));
    forall w: Resource, l: Life, h: Happening ensures Through(l, [h], w) == (if h.what == w then Lived(l, h) else l) { }
    LivesStep(s.calls, s.log, i, c, [Took(i, Audit)]);
    AuditsBegin(s.calls, s.ledger.handles, i, c);
    A.BeginKeepsLedger(s.ledger, c.options.audit.value);
    hide LivesOk, AuditsOk, A.LedgerOk, LogOk;
  }

  lemma EnterKeeps(s: State, i: nat, ok: bool)
    requires Inv(s) && i < |s.calls| && s.calls[i].phase == Entering
    ensures Inv(Entered(s, i, ok))
  {
    assert CallOk(s.calls[i]);
    if !ok || s.current.None? || !GateActive(s, s.current.value) { SettleKeeps(s, i, Failed); }
    else {
      var c := s.calls[i].(lease := Some(GateLease(s.current.value, s.session.epoch, s.session.runGeneration)));
      var s1 := Logged(Put(s, i, c), Took(i, Gate));
      TakeKeeps(s, i, c, [Took(i, Gate)]);
      if !LeaseActive(s1, c) { FailKeeps(s1, i); }
      else if c.options.durable {
        assert s1.log + [] == s1.log;
        TakeKeeps(s1, i, c.(phase := AwaitingIoLease), []);
      }
      else { BodyKeeps(s1, i); }
    }
    hide InvBut, Failing, Body, Settled;
  }

  lemma IoLeaseKeeps(s: State, i: nat, ok: bool)
    requires Inv(s) && i < |s.calls| && s.calls[i].phase == AwaitingIoLease
    ensures Inv(IoLeaseAnswered(s, i, ok))
  {
    assert CallOk(s.calls[i]);
    if !ok { FailKeeps(s, i); }
    else {
      TakeKeeps(s, i, s.calls[i].(ioLease := true), [Took(i, IoLease)]);
      BodyKeeps(Logged(Put(s, i, s.calls[i].(ioLease := true)), Took(i, IoLease)), i);
    }
    hide InvBut, Failing, Body;
  }

  lemma BodyEndKeeps(s: State, i: nat, ok: bool)
    requires Inv(s) && i < |s.calls| && s.calls[i].phase == Running
    ensures Inv(BodyEnded(s, i, ok))
  {
    assert CallOk(s.calls[i]);
    var c := s.calls[i];
    if !ok || (!LocalLockReplaced(s, c) && !OwnerTransitionReplaced(s, c) && !LeaseActive(s, c)) { FailKeeps(s, i); }
    else {
      assert s.log + [] == s.log;
      TakeKeeps(s, i, c.(phase := Confirming), []);
    }
    hide InvBut, Failing;
  }

  lemma ConfirmKeeps(s: State, i: nat, ok: bool)
    requires Inv(s) && i < |s.calls| && s.calls[i].phase == Confirming
    ensures Inv(Confirmed(s, i, ok))
  {
    assert CallOk(s.calls[i]);
    if ok { LeaveKeeps(s, i, Succeeded, A.Completed); } else { FailKeeps(s, i); }
    hide InvBut, Failing, Leaving, Audited;
  }

  lemma StartKeeps(s: State, kind: Kind, options: Options)
    requires Inv(s)
    ensures Inv(Step(s, Start(kind, options)))
  {
    var t := Step(s, Start(kind, options));
    forall w: Resource ensures LifeOf(s.log, |s.calls|, w) == Untaken { NothingYet(s.log, |s.calls|, w); }
    assert t.calls == s.calls + [Call(kind, options, AwaitingAdmission, false, false, None, false, None)];
    forall k: nat | k < |t.calls| ensures AuditOk(t.calls[k], s.ledger.handles) && CallOk(t.calls[k]) {
      if k < |s.calls| { assert t.calls[k] == s.calls[k] && AuditOk(s.calls[k], s.ledger.handles); }
    }
    forall a: nat, b: nat | a < b < |t.calls| && t.calls[a].audit.Some? ensures t.calls[a].audit != t.calls[b].audit {
      assert t.calls[a] == s.calls[a];
      if b < |s.calls| { assert t.calls[b] == s.calls[b]; }
    }
    forall h: nat | h < |s.ledger.handles| ensures Owned(t.calls, h) {
      assert Owned(s.calls, h);
      var j: nat :| j < |s.calls| && s.calls[j].audit == Some(h);
      assert t.calls[j].audit == Some(h);
    }
    assert AuditsOk(t.calls, s.ledger.handles);
    hide A.LedgerOk, AuditsOk;
  }

  lemma AdmitKeeps(s: State, i: nat, ok: bool)
    requires Inv(s) && i < |s.calls| && s.calls[i].phase == AwaitingAdmission
    ensures Inv(Step(s, Admit(i, ok)))
  {
    assert CallOk(s.calls[i]);
    if ok { TakeKeeps(s, i, s.calls[i].(phase := Entering, admitted := true), [Took(i, Admission)]); }
    else { SettleKeeps(s, i, Failed); }
    hide InvBut, Settled;
  }

  lemma AbortKeeps(s: State, i: nat)
    requires Inv(s) && i < |s.calls|
    ensures Inv(Put(s, i, s.calls[i].(aborted := true)))
  {
    var c := s.calls[i].(aborted := true);
    assert CallOk(s.calls[i]);
    assert s.log + [] == s.log;
    LivesStep(s.calls, s.log, i, c, []);
    AuditsStay(s.calls, s.ledger.handles, i, c);
    hide LivesOk, AuditsOk, A.LedgerOk, LogOk;
  }

  lemma StepKeepsInv(s: State, e: Event)
    requires Inv(s)
    ensures Inv(Step(s, e))
  {
    if Enabled(s, e) {
      match e
      case Start(kind, options) => StartKeeps(s, kind, options);
      case Admit(i, ok) => AdmitKeeps(s, i, ok);
      case Enter(i, ok) => EnterKeeps(s, i, ok);
      case IoLeaseAnswers(i, ok) => IoLeaseKeeps(s, i, ok);
      case BodyEnds(i, ok) => BodyEndKeeps(s, i, ok);
      case AuthorityAnswers(i, ok) => ConfirmKeeps(s, i, ok);
      case ReleaseEnds(i, ok) =>
        assert CallOk(s.calls[i]);
        SettleKeeps(s, i, if ok then s.calls[i].phase.outcome else Failed);
      case Abort(i) => AbortKeeps(s, i);
      case _ =>
    }
    hide CallsOk, LivesOk, AuditsOk, A.LedgerOk, LogOk, Settled, Entered, IoLeaseAnswered, BodyEnded, Confirmed;
  }

  lemma {:induction false} RunKeepsInv(session: Session, es: seq<Event>)
    ensures Inv(Run(session, es))
  {
    if es != [] {
      RunKeepsInv(session, es[..|es| - 1]);
      StepKeepsInv(Run(session, es[..|es| - 1]), es[|es| - 1]);
      hide Inv, Step;
    }
  }

  // ---------------------------------------------------- everything given back

  function Times(log: seq<Happening>, h: Happening): nat {
    if log == [] then 0 else Times(log[..|log| - 1], h) + (if log[|log| - 1] == h then 1 else 0)
  }

  lemma {:induction false} LifeCounts(log: seq<Happening>, i: nat, w: Resource)
    requires LifeOf(log, i, w) != Broken
    ensures Times(log, Took(i, w)) == (if LifeOf(log, i, w) == Untaken then 0 else 1)
    ensures Times(log, Gave(i, w)) == (if LifeOf(log, i, w) == Returned then 1 else 0)
  {
    if log != [] { LifeCounts(log[..|log| - 1], i, w); }
  }

  /** Nothing is taken or given back twice, and a call that is over has given back all it took:
      admission, gate lease, I/O lease and audit handle, whichever way it went. */
  lemma GivenBackOnce(session: Session, es: seq<Event>, i: nat, w: Resource)
    requires i < |Run(session, es).calls|
    ensures var s := Run(session, es);
            && Times(s.log, Gave(i, w)) <= Times(s.log, Took(i, w)) <= 1
            && (s.calls[i].phase.Done? ==> Times(s.log, Gave(i, w)) == Times(s.log, Took(i, w)))
  {
    RunKeepsInv(session, es);
    var s := Run(session, es);
    hide Run, A.LedgerOk, AuditsOk, CallsOk, LogOk, LifeOf;
    assert LifeOf(s.log, i, w) == Expected(s.calls[i], w);
    LifeCounts(s.log, i, w);
  }

  // ----------------------------------------------------------------- balance

  predicate Counted(c: Call, op: string) { c.audit.Some? && c.options.audit == Some(op) && !Leaves(c) }

  /** Calls whose audited body was begun and not finished. */
  function InFlight(calls: seq<Call>, op: string): nat {
    if calls == [] then 0 else InFlight(calls[..|calls| - 1], op) + (if Counted(calls[|calls| - 1], op) then 1 else 0)
  }

  function FlightSet(calls: seq<Call>, op: string): (r: set<nat>)
    ensures |r| == InFlight(calls, op)
    ensures forall i: nat :: i in r <==> i < |calls| && Counted(calls[i], op)
  {
    if calls == [] then {}
    else
      var n := |calls| - 1;
      FlightSet(calls[..n], op) + (if Counted(calls[n], op) then {n} else {})
  }

  function HandleSet(handles: seq<A.Handle>, op: string, o: Option<A.AuditOutcome>): (r: set<nat>)
    ensures |r| == A.Tally(handles, op, o)
    ensures forall h: nat :: h in r <==> h < |handles| && handles[h] == A.Handle(op, o)
  {
    if handles == [] then {}
    else
      var n := |handles| - 1;
      HandleSet(handles[..n], op, o) + (if handles[n] == A.Handle(op, o) then {n} else {})
  }

  predicate Holds(calls: seq<Call>, i: nat, h: nat) { i < |calls| && calls[i].audit == Some(h) }

  lemma {:induction false} Pairing(calls: seq<Call>, c: set<nat>, h: set<nat>)
    requires forall i :: i in c ==> i < |calls| && calls[i].audit.Some? && calls[i].audit.value in h
    requires forall i, j :: i in c && j in c && i != j ==> calls[i].audit != calls[j].audit
    requires forall x :: x in h ==> exists i :: i in c && Holds(calls, i, x)
    ensures |c| == |h|
  {
    if c == {} {
      forall x ensures x !in h { }
    } else {
      var i :| i in c;
      var x := calls[i].audit.value;
      forall y | y in h - {x} ensures exists j :: j in c - {i} && Holds(calls, j, y) {
        var j :| j in c && Holds(calls, j, y);
        assert j in c - {i};
      }
      Pairing(calls, c - {i}, h - {x});
    }
  }

  /** For every operation: admitted = completed + failed + unknown + in flight. */
  lemma AuditBalances(session: Session, es: seq<Event>, op: string)
    ensures var s := Run(session, es);
            var n := A.StatsOf(s.ledger, op);
            n.admitted == n.completed + n.failed + n.unknown + InFlight(s.calls, op)
  {
    RunKeepsInv(session, es);
    var s := Run(session, es);
    hide Run, CallsOk, LivesOk, LogOk, A.LedgerOk;
    A.AdmittedBalances(s.ledger, op);
    var c, h := FlightSet(s.calls, op), HandleSet(s.ledger.handles, op, None);
    forall i | i in c ensures s.calls[i].audit.value in h { assert AuditOk(s.calls[i], s.ledger.handles); }
    forall x | x in h ensures exists i :: i in c && Holds(s.calls, i, x) { OpenIsInFlight(s, op, x); }
    Pairing(s.calls, c, h);
  }

  lemma OpenIsInFlight(s: State, op: string, h: nat)
    requires AuditsOk(s.calls, s.ledger.handles) && h < |s.ledger.handles| && s.ledger.handles[h] == A.Handle(op, None)
    ensures exists i :: i in FlightSet(s.calls, op) && Holds(s.calls, i, h)
  {
    assert Owned(s.calls, h);
    var i: nat :| i < |s.calls| && s.calls[i].audit == Some(h);
    assert AuditOk(s.calls[i], s.ledger.handles);
    assert i in FlightSet(s.calls, op) && Holds(s.calls, i, h);
  }

  /** The call has an audit of this operation that ended so. */
  predicate Ends(c: Call, handles: seq<A.Handle>, op: string, o: A.AuditOutcome) {
    c.audit.Some? && c.audit.value < |handles| && handles[c.audit.value] == A.Handle(op, Some(o))
  }

  /** The calls of one kind whose audit of the operation ended so. */
  function Ending(calls: seq<Call>, handles: seq<A.Handle>, kind: Kind, op: string, o: A.AuditOutcome): nat {
    if calls == [] then 0
    else
      var n := |calls| - 1;
      Ending(calls[..n], handles, kind, op, o)
        + (if calls[n].kind == kind && Ends(calls[n], handles, op, o) then 1 else 0)
  }

  function EndingSet(calls: seq<Call>, handles: seq<A.Handle>, kind: Kind, op: string, o: A.AuditOutcome): (r: set<nat>)
    ensures |r| == Ending(calls, handles, kind, op, o)
    ensures forall i: nat :: i in r <==> i < |calls| && calls[i].kind == kind && Ends(calls[i], handles, op, o)
  {
    if calls == [] then {}
    else
      var n := |calls| - 1;
      hide Ends;
      EndingSet(calls[..n], handles, kind, op, o)
      + (if calls[n].kind == kind && Ends(calls[n], handles, op, o) then {n} else {})
  }

  /** The handles with an outcome are as many as the calls that ended so, when only one kind can. */
  lemma OutcomeCounts(s: State, kind: Kind, op: string, o: A.AuditOutcome)
    requires AuditsOk(s.calls, s.ledger.handles)
    requires o == if kind == Write then A.Unknown else A.Failed
    ensures A.Tally(s.ledger.handles, op, Some(o)) == Ending(s.calls, s.ledger.handles, kind, op, o)
  {
    hide A.Tally, Ending, EndingSet, HandleSet;
    var c, h := EndingSet(s.calls, s.ledger.handles, kind, op, o), HandleSet(s.ledger.handles, op, Some(o));
    forall x | x in h ensures exists i :: i in c && Holds(s.calls, i, x) {
      assert Owned(s.calls, x);
      var i: nat :| i < |s.calls| && s.calls[i].audit == Some(x);
      assert AuditOk(s.calls[i], s.ledger.handles);
      assert i in c && Holds(s.calls, i, x);
    }
    Pairing(s.calls, c, h);
  }

  /** No write's audit ever ends as failed and no read's as unknown; and the counters say just how
      many reads failed and how many writes ended unknown. */
  lemma FailuresAreReads(session: Session, es: seq<Event>, op: string)
    ensures var s := Run(session, es);
            && (forall i: nat :: i < |s.calls| && s.calls[i].audit.Some? ==>
                 && s.calls[i].audit.value < |s.ledger.handles|
                 && s.ledger.handles[s.calls[i].audit.value].outcome
                      != Some(if s.calls[i].kind == Write then A.Failed else A.Unknown))
            && A.StatsOf(s.ledger, op).failed == Ending(s.calls, s.ledger.handles, Read, op, A.Failed)
            && A.StatsOf(s.ledger, op).unknown == Ending(s.calls, s.ledger.handles, Write, op, A.Unknown)
  {
    RunKeepsInv(session, es);
    var s := Run(session, es);
    hide Run, CallsOk, LivesOk, LogOk, Ending;
    OutcomeCounts(s, Read, op, A.Failed);
    OutcomeCounts(s, Write, op, A.Unknown);
    forall i: nat | i < |s.calls| && s.calls[i].audit.Some?
      ensures s.calls[i].audit.value < |s.ledger.handles|
      ensures s.ledger.handles[s.calls[i].audit.value].outcome != Some(if s.calls[i].kind == Write then A.Failed
          else A.Unknown)
    {
      assert AuditOk(s.calls[i], s.ledger.handles);
    }
  }

  // ---------------------------------------------------------- what success means

  /** The body may count as done: the lease is still active, or an allowed lock or owner transition
      of this worker replaced the gate. */
  predicate Fitting(s: State, i: nat) {
    && i < |s.calls| && s.calls[i].lease.Some?
    && var c, lease, o := s.calls[i], s.calls[i].lease.value, s.calls[i].options;
       var active := lease.gate < |s.gates| && s.gates[lease.gate];
       || (active && !c.aborted)
       || (!active && s.current != Some(lease.gate) && o.allowLocalLock && s.session.vault in {Locked, Uninitialized})
       || (!active && s.current != Some(lease.gate) && o.allowLocalOwnerTransition && s.session.vault == Unlocked
           && (s.session.epoch, s.session.runGeneration) != (lease.epoch, lease.runGeneration))
  }

  predicate Successful(p: Phase) { p == Releasing(Succeeded) || p == Done(Succeeded) }

  /** Only call `i` moved, and neither to the confirmation nor to success. */
  predicate Unsuccessful(s: State, t: State, i: nat) {
    && |t.calls| == |s.calls|
    && (forall k: nat :: k < |s.calls| && k != i ==> t.calls[k] == s.calls[k])
    && (i < |s.calls| ==> t.calls[i].phase != Confirming && !Successful(t.calls[i].phase))
  }

  lemma FailingPhase(s: State, i: nat)
    requires i < |s.calls|
    ensures Unsuccessful(s, Failing(s, i), i)
  { hide A.Finished; }

  lemma BodyPhase(s: State, i: nat)
    requires i < |s.calls|
    ensures Unsuccessful(s, Body(s, i), i)
  {
    FailingPhase(s, i);
    hide A.Begun, Failing;
  }

  lemma EnteredPhase(s: State, i: nat, ok: bool)
    requires i < |s.calls|
    ensures Unsuccessful(s, Entered(s, i, ok), i)
  {
    if ok && s.current.Some? && GateActive(s, s.current.value) {
      var c := s.calls[i].(lease := Some(GateLease(s.current.value, s.session.epoch, s.session.runGeneration)));
      FailingPhase(Logged(Put(s, i, c), Took(i, Gate)), i);
      BodyPhase(Logged(Put(s, i, c), Took(i, Gate)), i);
    }
    hide Failing, Body;
  }

  lemma IoLeasePhase(s: State, i: nat, ok: bool)
    requires i < |s.calls|
    ensures Unsuccessful(s, IoLeaseAnswered(s, i, ok), i)
  {
    FailingPhase(s, i);
    BodyPhase(Logged(Put(s, i, s.calls[i].(ioLease := true)), Took(i, IoLease)), i);
    hide Failing, Body;
  }

  /** The ways to the confirmation and to success. */
  predicate PhaseStep(s: State, e: Event, t: State, i: nat) {
    i < |t.calls| ==>
      var p := t.calls[i].phase;
      && (p == Confirming ==>
           && i < |s.calls|
           && (s.calls[i].phase == p || (e == BodyEnds(i, true) && s.calls[i].phase == Running && Fitting(s, i))))
      && (Successful(p) ==>
           && i < |s.calls|
           && (s.calls[i].phase == p
               || (e == AuthorityAnswers(i, true) && s.calls[i].phase == Confirming && p == Releasing(Succeeded))
               || (e == ReleaseEnds(i, true) && s.calls[i].phase == Releasing(Succeeded) && p == Done(Succeeded))))
  }

  lemma UnsuccessfulStep(s: State, e: Event, t: State, i: nat, k: nat)
    requires Unsuccessful(s, t, k) && k < |s.calls|
    ensures PhaseStep(s, e, t, i)
  { }

  lemma BodyEndPhase(s: State, i: nat, k: nat, ok: bool)
    requires k < |s.calls| && s.calls[k].phase == Running
    ensures PhaseStep(s, BodyEnds(k, ok), BodyEnded(s, k, ok), i)
  {
    FailingPhase(s, k);
    hide Failing;
  }

  lemma ConfirmPhase(s: State, i: nat, k: nat, ok: bool)
    requires k < |s.calls| && s.calls[k].phase == Confirming
    ensures PhaseStep(s, AuthorityAnswers(k, ok), Confirmed(s, k, ok), i)
  {
    FailingPhase(s, k);
    hide Failing, A.Finished;
  }

  lemma StepPhase(s: State, e: Event, i: nat)
    ensures PhaseStep(s, e, Step(s, e), i)
  {
    if Enabled(s, e) {
      match e
      case Enter(k, ok) => EnteredPhase(s, k, ok); UnsuccessfulStep(s, e, Entered(s, k, ok), i, k);
      case IoLeaseAnswers(k, ok) => IoLeasePhase(s, k, ok); UnsuccessfulStep(s, e, IoLeaseAnswered(s, k, ok), i, k);
      case BodyEnds(k, ok) => BodyEndPhase(s, i, k, ok);
      case AuthorityAnswers(k, ok) => ConfirmPhase(s, i, k, ok);
      case _ =>
    }
    hide Entered, IoLeaseAnswered, BodyEnded, Confirmed, Fitting;
  }

  /** The body of the call ended well at event `b`, at a moment when it counted. */
  ghost predicate EndedWell(session: Session, es: seq<Event>, i: nat, b: nat) {
    b < |es| && es[b] == BodyEnds(i, true) && InPhase(session, es, i, b, Running) && Fitting(Run(session, es[..b]), i)
  }

  /** After the body had ended well, the authority was found current. */
  ghost predicate ThenCurrent(session: Session, es: seq<Event>, i: nat, b: nat, c: nat) {
    b < c < |es| && EndedWell(session, es, i, b) && es[c] == AuthorityAnswers(i, true)
      && InPhase(session, es, i, c, Confirming)
  }

  /** The phase of a call when event `k` comes. */
  ghost predicate InPhase(session: Session, es: seq<Event>, i: nat, k: nat, p: Phase) {
    k <= |es| && i < |Run(session, es[..k]).calls| && Run(session, es[..k]).calls[i].phase == p
  }

  /** The I/O lease of the call was released, successfully or not. */
  ghost predicate Releases(session: Session, es: seq<Event>, i: nat, d: nat, ok: bool) {
    && d < |es| && es[d] == ReleaseEnds(i, ok)
    && (InPhase(session, es, i, d, Releasing(Succeeded)) || InPhase(session, es, i, d, Releasing(Failed)))
  }

  ghost predicate FoundCurrent(session: Session, es: seq<Event>, i: nat) {
    exists b: nat, c: nat :: ThenCurrent(session, es, i, b, c)
  }

  ghost predicate WasReleased(session: Session, es: seq<Event>, i: nat, ok: bool) {
    exists d: nat :: Releases(session, es, i, d, ok)
  }

  // What one more event adds to the history of a call.

  predicate NowIn(s: State, i: nat, p: Phase) { i < |s.calls| && s.calls[i].phase == p }

  lemma InPhaseBefore(session: Session, es: seq<Event>, i: nat, k: nat, p: Phase)
    requires es != []
    ensures k < |es| ==> (InPhase(session, es, i, k, p) <==> InPhase(session, es[..|es| - 1], i, k, p))
    ensures InPhase(session, es, i, |es| - 1, p) <==> NowIn(Run(session, es[..|es| - 1]), i, p)
  {
    hide Run;
    if k < |es| { assert es[..|es| - 1][..k] == es[..k]; }
  }

  lemma EndedWellGrows(session: Session, es: seq<Event>, i: nat, b: nat)
    requires es != []
    ensures var before, n := es[..|es| - 1], |es| - 1;
            var newly := b == n && es[n] == BodyEnds(i, true) && NowIn(Run(session, before), i, Running)
              && Fitting(Run(session, before), i);
            EndedWell(session, es, i, b) <==> (EndedWell(session, before, i, b) || newly)
  {
    hide Run, Fitting, InPhase, NowIn;
    InPhaseBefore(session, es, i, b, Running);
    if b < |es| { assert es[..|es| - 1][..b] == es[..b]; }
  }

  lemma FoundCurrentGrows(session: Session, es: seq<Event>, i: nat)
    requires es != []
    ensures var before, n := es[..|es| - 1], |es| - 1;
            var newly := es[n] == AuthorityAnswers(i, true) && NowIn(Run(session, before), i, Confirming)
              && exists b: nat :: EndedWell(session, before, i, b);
            FoundCurrent(session, es, i) <==> (FoundCurrent(session, before, i) || newly)
  {
    hide Run, EndedWell, InPhase, NowIn;
    var before, n := es[..|es| - 1], |es| - 1;
    if b: nat, c: nat :| ThenCurrent(session, es, i, b, c) {
      EndedWellGrows(session, es, i, b);
      InPhaseBefore(session, es, i, c, Confirming);
      if c < n { assert ThenCurrent(session, before, i, b, c); }
    }
    if b: nat, c: nat :| ThenCurrent(session, before, i, b, c) {
      EndedWellGrows(session, es, i, b);
      InPhaseBefore(session, es, i, c, Confirming);
      assert ThenCurrent(session, es, i, b, c);
    }
    if b: nat :| EndedWell(session, before, i, b) {
      EndedWellGrows(session, es, i, b);
      EndedWellBound(session, before, i, b);
      InPhaseBefore(session, es, i, n, Confirming);
      if es[n] == AuthorityAnswers(i, true) && NowIn(Run(session, before), i, Confirming) {
        assert ThenCurrent(session, es, i, b, n);
      }
    }
  }

  lemma EndedWellBound(session: Session, es: seq<Event>, i: nat, b: nat)
    requires EndedWell(session, es, i, b)
    ensures b < |es|
  { hide Run, Fitting; }

  lemma WasReleasedGrows(session: Session, es: seq<Event>, i: nat, ok: bool)
    requires es != []
    ensures var before, n := es[..|es| - 1], |es| - 1;
            var s := Run(session, before);
            var newly := es[n] == ReleaseEnds(i, ok)
              && (NowIn(s, i, Releasing(Succeeded)) || NowIn(s, i, Releasing(Failed)));
            WasReleased(session, es, i, ok) <==> (WasReleased(session, before, i, ok) || newly)
  {
    hide Run, InPhase, NowIn;
    var before, n := es[..|es| - 1], |es| - 1;
    InPhaseBefore(session, es, i, n, Releasing(Succeeded));
    InPhaseBefore(session, es, i, n, Releasing(Failed));
    if d: nat :| Releases(session, es, i, d, ok) {
      InPhaseBefore(session, es, i, d, Releasing(Succeeded));
      InPhaseBefore(session, es, i, d, Releasing(Failed));
      if d < n { assert Releases(session, before, i, d, ok); }
    }
    if d: nat :| Releases(session, before, i, d, ok) {
      InPhaseBefore(session, es, i, d, Releasing(Succeeded));
      InPhaseBefore(session, es, i, d, Releasing(Failed));
      assert Releases(session, es, i, d, ok);
    }
    if es[n] == ReleaseEnds(i, ok)
      && (InPhase(session, es, i, n, Releasing(Succeeded)) || InPhase(session, es, i, n, Releasing(Failed))) {
      assert Releases(session, es, i, n, ok);
    }
  }

  lemma {:induction false} SuccessHistory(session: Session, es: seq<Event>, i: nat)
    requires i < |Run(session, es).calls|
    ensures Run(session, es).calls[i].phase == Confirming ==> exists b: nat :: EndedWell(session, es, i, b)
    ensures Successful(Run(session, es).calls[i].phase) ==> FoundCurrent(session, es, i)
  {
    if es != [] {
      var before, n := es[..|es| - 1], |es| - 1;
      var s := Run(session, before);
      StepPhase(s, es[n], i);
      FoundCurrentGrows(session, es, i);
      if i < |s.calls| { SuccessHistory(session, before, i); }
      EndedWellGrows(session, es, i, n);
      if b: nat :| EndedWell(session, before, i, b) { EndedWellGrows(session, es, i, b); }
      assert Run(session, es) == Step(s, es[n]);
      hide Run, Fitting, Step, EndedWell, FoundCurrent;
    }
  }

  /** A call that returned its result: its body had ended while the admitting gate was still active
      and the call not aborted, or after an allowed replacement; and the authority was found current
      after that. */
  lemma SuccessMeansCurrent(session: Session, es: seq<Event>, i: nat)
    requires i < |Run(session, es).calls| && Run(session, es).calls[i].phase == Done(Succeeded)
    ensures exists b: nat, c: nat :: ThenCurrent(session, es, i, b, c)
  {
    SuccessHistory(session, es, i);
    hide Run;
  }

  /** The exact outcome of a running call: it succeeds iff its body ends well at a fitting moment and
      the authority is current then; its audit says completed, or else unknown for a write and failed
      for a read. */
  lemma OutcomeOf(s: State, i: nat, ok: bool, current: bool)
    requires Inv(s) && i < |s.calls| && s.calls[i].phase == Running
    ensures var t := Step(Step(Step(s, BodyEnds(i, ok)), AuthorityAnswers(i, current)), ReleaseEnds(i, true));
            var success := ok && current && Fitting(s, i);
            && |t.calls| == |s.calls|
            && t.calls[i].phase == Done(if success then Succeeded else Failed)
            && (s.calls[i].audit.Some? ==>
                 && s.calls[i].audit.value < |t.ledger.handles|
                 && t.ledger.handles[s.calls[i].audit.value].outcome
                    == Some(if success then A.Completed else if s.calls[i].kind == Write then A.Unknown else A.Failed))
  {
    RunningIsOpen(s, i);
    var bad := if s.calls[i].kind == Write then A.Unknown else A.Failed;
    BodyEndsAs(s, i, ok);
    if ok && Fitting(s, i) {
      var c := Put(s, i, s.calls[i].(phase := Confirming));
      ConfirmsAs(c, i, current);
      LeavesWith(c, i, if current then Succeeded else Failed, if current then A.Completed else bad);
    } else {
      LeavesWith(s, i, Failed, bad);
      NotConfirming(Leaving(Audited(s, i, bad), i, Failed), i, current);
    }
    var u := Step(Step(s, BodyEnds(i, ok)), AuthorityAnswers(i, current));
    SettlesAs(u, i);
    hide *;
  }

  lemma RunningIsOpen(s: State, i: nat)
    requires Inv(s) && i < |s.calls| && s.calls[i].phase == Running
    ensures AuditOk(s.calls[i], s.ledger.handles) && !Leaves(s.calls[i]) && s.calls[i].lease.Some?
  { assert CallOk(s.calls[i]); }

  lemma BodyEndsAs(s: State, i: nat, ok: bool)
    requires i < |s.calls| && s.calls[i].phase == Running && s.calls[i].lease.Some?
    ensures Step(s, BodyEnds(i, ok)) ==
              if ok && Fitting(s, i) then Put(s, i, s.calls[i].(phase := Confirming))
              else Leaving(Audited(s, i, if s.calls[i].kind == Write then A.Unknown else A.Failed), i, Failed)
  { hide Leaving, Audited; }

  lemma ConfirmsAs(s: State, i: nat, current: bool)
    requires i < |s.calls| && s.calls[i].phase == Confirming
    ensures Step(s, AuthorityAnswers(i, current)) ==
              if current then Leaving(Audited(s, i, A.Completed), i, Succeeded)
              else Leaving(Audited(s, i, if s.calls[i].kind == Write then A.Unknown else A.Failed), i, Failed)
  { hide Leaving, Audited; }

  lemma NotConfirming(s: State, i: nat, current: bool)
    requires i < |s.calls| && s.calls[i].phase != Confirming
    ensures Step(s, AuthorityAnswers(i, current)) == s
  { }

  lemma SettlesAs(s: State, i: nat)
    requires i < |s.calls| && s.calls[i].phase.Releasing?
    ensures var t := Step(s, ReleaseEnds(i, true));
            |t.calls| == |s.calls| && t.calls[i] == s.calls[i].(phase := Done(s.calls[i].phase.outcome))
              && t.ledger == s.ledger
  { }

  lemma LeavesWith(s: State, i: nat, outcome: Outcome, o: A.AuditOutcome)
    requires i < |s.calls| && AuditOk(s.calls[i], s.ledger.handles) && !Leaves(s.calls[i])
    ensures var t := Leaving(Audited(s, i, o), i, outcome);
            && |t.calls| == |s.calls| && t.calls[i] == s.calls[i].(phase := Releasing(outcome))
            && (s.calls[i].audit.Some? ==>
                 s.calls[i].audit.value < |t.ledger.handles|
                   && t.ledger.handles[s.calls[i].audit.value].outcome == Some(o))
  { }

  // ------------------------------------------------------------ the exact outcome

  /** A step on call `k` leaves the other calls and their audit handles alone. */
  ghost predicate Elsewhere(s: State, t: State, k: nat) {
    && |t.calls| >= |s.calls| && |t.ledger.handles| >= |s.ledger.handles|
    && (forall j: nat :: j < |s.calls| && j != k ==> t.calls[j] == s.calls[j])
    && (forall h: nat :: h < |s.ledger.handles| && (k < |s.calls| ==> s.calls[k].audit != Some(h)) ==>
         t.ledger.handles[h] == s.ledger.handles[h])
  }

  lemma LeavingElsewhere(s: State, k: nat, outcome: Outcome, o: A.AuditOutcome)
    requires k < |s.calls|
    ensures Elsewhere(s, Leaving(Audited(s, k, o), k, outcome), k)
  { }

  lemma BodyElsewhere(s: State, k: nat)
    requires k < |s.calls|
    ensures Elsewhere(s, Body(s, k), k)
  {
    LeavingElsewhere(s, k, Failed, if s.calls[k].kind == Write then A.Unknown else A.Failed);
    hide Leaving, Audited;
  }

  lemma EnteredElsewhere(s: State, k: nat, ok: bool)
    requires k < |s.calls|
    ensures Elsewhere(s, Entered(s, k, ok), k)
  {
    if ok && s.current.Some? && GateActive(s, s.current.value) {
      var c := s.calls[k].(lease := Some(GateLease(s.current.value, s.session.epoch, s.session.runGeneration)));
      var s1 := Logged(Put(s, k, c), Took(k, Gate));
      LeavingElsewhere(s1, k, Failed, if c.kind == Write then A.Unknown else A.Failed);
      BodyElsewhere(s1, k);
    }
    hide Leaving, Audited, Body;
  }

  lemma IoLeaseElsewhere(s: State, k: nat, ok: bool)
    requires k < |s.calls|
    ensures Elsewhere(s, IoLeaseAnswered(s, k, ok), k)
  {
    var s1 := Logged(Put(s, k, s.calls[k].(ioLease := true)), Took(k, IoLease));
    LeavingElsewhere(s, k, Failed, if s.calls[k].kind == Write then A.Unknown else A.Failed);
    BodyElsewhere(s1, k);
    hide Leaving, Audited, Body;
  }

  /** The call that an event is about. */
  function Target(e: Event): Option<nat> {
    match e
    case Admit(i, _) => Some(i)
    case Enter(i, _) => Some(i)
    case IoLeaseAnswers(i, _) => Some(i)
    case BodyEnds(i, _) => Some(i)
    case AuthorityAnswers(i, _) => Some(i)
    case ReleaseEnds(i, _) => Some(i)
    case Abort(i) => Some(i)
    case _ => None
  }

  lemma OtherCalls(s: State, e: Event, i: nat)
    requires Inv(s) && i < |s.calls| && (Target(e) != Some(i) || !Enabled(s, e))
    ensures var t := Step(s, e);
            && i < |t.calls| && t.calls[i] == s.calls[i]
            && (s.calls[i].audit.Some? ==>
                 && s.calls[i].audit.value < |s.ledger.handles| <= |t.ledger.handles|
                 && t.ledger.handles[s.calls[i].audit.value] == s.ledger.handles[s.calls[i].audit.value])
  {
    assert AuditOk(s.calls[i], s.ledger.handles);
    if Enabled(s, e) {
      match e
      case Enter(k, ok) => EnteredElsewhere(s, k, ok); HandlesApart(s, i, k);
      case IoLeaseAnswers(k, ok) => IoLeaseElsewhere(s, k, ok); HandlesApart(s, i, k);
      case BodyEnds(k, ok) =>
        LeavingElsewhere(s, k, Failed, if s.calls[k].kind == Write then A.Unknown else A.Failed);
        HandlesApart(s, i, k);
      case AuthorityAnswers(k, ok) =>
        LeavingElsewhere(s, k, Failed, if s.calls[k].kind == Write then A.Unknown else A.Failed);
        LeavingElsewhere(s, k, Succeeded, A.Completed);
        HandlesApart(s, i, k);
      case _ =>
    }
    hide Inv, Leaving, Audited, Entered, IoLeaseAnswered, Fitting, LocalLockReplaced, OwnerTransitionReplaced;
  }

  lemma HandlesApart(s: State, i: nat, k: nat)
    requires Inv(s) && i < |s.calls| && k < |s.calls| && i != k
    ensures s.calls[i].audit.Some? ==> s.calls[i].audit != s.calls[k].audit
  { hide CallsOk, LivesOk, A.LedgerOk, LogOk; }

  predicate Bad(c: Call, o: A.AuditOutcome) { o == if c.kind == Write then A.Unknown else A.Failed }

  /** How a step moves its own call: what decides success, and what the audit then says. */
  ghost predicate Moves(s: State, e: Event, t: State, i: nat) {
    && i < |s.calls| && i < |t.calls|
    && var c, d := s.calls[i], t.calls[i];
       && d.kind == c.kind
       && (Leaves(c) ==> Leaves(d) && d.audit == c.audit)
       && (!Leaves(c) && Leaves(d) && !d.phase.Done? ==>
            && d.audit == c.audit
            && (d.phase == Releasing(Succeeded) <==> e == AuthorityAnswers(i, true) && c.phase == Confirming)
            && (d.audit.Some? ==>
                 && d.audit.value < |t.ledger.handles|
                 && var o := t.ledger.handles[d.audit.value].outcome;
                    o.Some? && (if d.phase == Releasing(Succeeded) then o.value == A.Completed else Bad(d, o.value))))
       && (!Leaves(c) && d.phase.Done? ==> d.phase == Done(Failed) && d.audit.None? && c.phase != Confirming)
       && (c.phase.Releasing? ==>
            if e == ReleaseEnds(i, true) then d.phase == Done(c.phase.outcome)
            else if e == ReleaseEnds(i, false) then d.phase == Done(Failed)
            else d.phase == c.phase)
       && (c.phase.Done? ==> d.phase == c.phase)
       && (e == AuthorityAnswers(i, true) && c.phase == Confirming ==> d.phase == Releasing(Succeeded))
       && (Leaves(c) && c.audit.Some? ==>
            && c.audit.value < |s.ledger.handles| <= |t.ledger.handles|
            && t.ledger.handles[c.audit.value] == s.ledger.handles[c.audit.value])
  }

  lemma LeavingMoves(s: State, e: Event, i: nat, outcome: Outcome, o: A.AuditOutcome)
    requires i < |s.calls| && !Leaves(s.calls[i]) && AuditOk(s.calls[i], s.ledger.handles)
    requires if outcome == Succeeded then
        o == A.Completed && e == AuthorityAnswers(i, true) && s.calls[i].phase == Confirming
             else Bad(s.calls[i], o) && !(e == AuthorityAnswers(i, true) && s.calls[i].phase == Confirming)
    ensures Moves(s, e, Leaving(Audited(s, i, o), i, outcome), i)
  { LeavesWith(s, i, outcome, o); hide Leaving, Audited; }

  lemma OwnStep(s: State, e: Event, i: nat)
    requires Inv(s) && i < |s.calls| && Target(e) == Some(i) && Enabled(s, e)
    ensures Moves(s, e, Step(s, e), i)
  {
    assert CallOk(s.calls[i]) && AuditOk(s.calls[i], s.ledger.handles);
    hide Inv;
    var bad := if s.calls[i].kind == Write then A.Unknown else A.Failed;
    match e
    case Enter(_, ok) => OwnEnter(s, i, ok);
    case IoLeaseAnswers(_, ok) => OwnIoLease(s, i, ok);
    case BodyEnds(_, ok) => LeavingMoves(s, e, i, Failed, bad);
    case AuthorityAnswers(_, ok) =>
      if ok { LeavingMoves(s, e, i, Succeeded, A.Completed); } else { LeavingMoves(s, e, i, Failed, bad); }
    case _ =>
    hide Leaving, Audited, Entered, IoLeaseAnswered, LeaseActive, LocalLockReplaced, OwnerTransitionReplaced;
  }

  /** A step towards the body: the call goes on, or fails with nothing to audit. */
  ghost predicate Early(s: State, t: State, i: nat) {
    && i < |s.calls| && i < |t.calls| && t.calls[i].kind == s.calls[i].kind
    && (Leaves(t.calls[i]) ==> t.calls[i].audit.None? && t.calls[i].phase in {Releasing(Failed), Done(Failed)})
  }

  lemma OwnBody(s: State, i: nat)
    requires i < |s.calls| && s.calls[i].audit.None? && !Leaves(s.calls[i])
    ensures Early(s, Body(s, i), i)
  { hide A.Begun, LeaseActive; }

  lemma OwnEnter(s: State, i: nat, ok: bool)
    requires i < |s.calls| && s.calls[i].phase == Entering && s.calls[i].audit.None?
    ensures Early(s, Entered(s, i, ok), i) && Moves(s, Enter(i, ok), Entered(s, i, ok), i)
  {
    if ok && s.current.Some? && GateActive(s, s.current.value) {
      var c := s.calls[i].(lease := Some(GateLease(s.current.value, s.session.epoch, s.session.runGeneration)));
      OwnBody(Logged(Put(s, i, c), Took(i, Gate)), i);
    }
    hide Body, LeaseActive;
  }

  lemma OwnIoLease(s: State, i: nat, ok: bool)
    requires i < |s.calls| && s.calls[i].phase == AwaitingIoLease && s.calls[i].audit.None?
    ensures Early(s, IoLeaseAnswered(s, i, ok), i) && Moves(s, IoLeaseAnswers(i, ok), IoLeaseAnswered(s, i, ok), i)
  {
    OwnBody(Logged(Put(s, i, s.calls[i].(ioLease := true)), Took(i, IoLease)), i);
    hide Body;
  }

  lemma StepMoves(s: State, e: Event, i: nat)
    requires Inv(s) && i < |s.calls|
    ensures Moves(s, e, Step(s, e), i)
  {
    if Target(e) == Some(i) && Enabled(s, e) { OwnStep(s, e, i); } else { OtherCalls(s, e, i); ForeignEvent(s, e, i); }
    hide Inv, Step;
  }

  lemma ForeignEvent(s: State, e: Event, i: nat)
    requires Inv(s) && i < |s.calls| && (Target(e) != Some(i) || !Enabled(s, e))
    ensures !(e == AuthorityAnswers(i, true) && s.calls[i].phase == Confirming)
    ensures s.calls[i].phase.Releasing? ==> forall ok: bool :: e != ReleaseEnds(i, ok)
  { }

  lemma CallsStay(s: State, e: Event)
    requires Inv(s)
    ensures |s.calls| <= |Step(s, e).calls|
  {
    if s.calls != [] { StepMoves(s, e, |s.calls| - 1); }
    hide Inv, Step;
  }

  /** What the events say of a call fixes its outcome and its audit. */
  ghost predicate Fate(session: Session, es: seq<Event>, i: nat) {
    var s, found := Run(session, es), FoundCurrent(session, es, i);
    var done, undone := WasReleased(session, es, i, true), WasReleased(session, es, i, false);
    if i >= |s.calls| then !found && !done && !undone
    else
      var c := s.calls[i];
      && (!Leaves(c) ==> !found && !done && !undone)
      && (c.phase.Releasing? ==> !done && !undone && (c.phase == Releasing(Succeeded) <==> found))
      && (c.phase.Done? ==> !(done && undone) && (found ==> done || undone))
      && (c.phase.Done? ==> (c.phase == Done(Succeeded) <==> found && done))
      && (Leaves(c) && c.audit.Some? ==>
           && c.audit.value < |s.ledger.handles|
           && var o := s.ledger.handles[c.audit.value].outcome;
              o.Some? && (if found then o.value == A.Completed else Bad(c, o.value)))
  }

  lemma {:induction false} FateHolds(session: Session, es: seq<Event>, i: nat)
    ensures Fate(session, es, i)
  {
    if es == [] { NoHistory(session, i); }
    else {
      var before, n := es[..|es| - 1], |es| - 1;
      var s, e := Run(session, before), es[n];
      FateHolds(session, before, i);
      RunKeepsInv(session, before);
      CallsStay(s, e);
      ConfirmingHistory(session, before, i);
      FoundCurrentGrows(session, es, i);
      WasReleasedGrows(session, es, i, true);
      WasReleasedGrows(session, es, i, false);
      assert Run(session, es) == Step(s, e);
      if i < |s.calls| { StepMoves(s, e, i); } else if i < |Step(s, e).calls| { NewCall(s, e, i); }
      hide Run, Step, Inv, EndedWell, FoundCurrent, WasReleased;
    }
  }

  lemma NoHistory(session: Session, i: nat)
    ensures Fate(session, [], i)
  { hide Fitting; }

  lemma ConfirmingHistory(session: Session, es: seq<Event>, i: nat)
    ensures NowIn(Run(session, es), i, Confirming) ==> exists b: nat :: EndedWell(session, es, i, b)
  {
    if i < |Run(session, es).calls| { SuccessHistory(session, es, i); }
    hide Run, EndedWell, FoundCurrent;
  }

  lemma NewCall(s: State, e: Event, i: nat)
    requires Inv(s) && |s.calls| <= i < |Step(s, e).calls|
    ensures !Leaves(Step(s, e).calls[i])
  {
    hide Inv, A.Begun, A.Finished;
  }

  /** The exact outcome over every run: a call returned its result iff its body had ended well at a
      fitting moment, the authority was found current then, and the I/O lease was released. The audit
      says completed iff the first two hold, so also of a call that failed in its release; otherwise it
      says unknown for a write and failed for a read. */
  lemma ExactOutcome(session: Session, es: seq<Event>, i: nat)
    requires i < |Run(session, es).calls| && Run(session, es).calls[i].phase.Done?
    ensures var s := Run(session, es);
            var c, found := s.calls[i], FoundCurrent(session, es, i);
            && (c.phase == Done(Succeeded) <==> found && WasReleased(session, es, i, true))
            && (c.phase == Done(Failed) && found ==> WasReleased(session, es, i, false))
            && (c.audit.Some? ==>
                 && c.audit.value < |s.ledger.handles|
                 && s.ledger.handles[c.audit.value].outcome ==
                      Some(if found then A.Completed else if c.kind == Write then A.Unknown else A.Failed))
  {
    FateHolds(session, es, i);
    hide Run, FoundCurrent, WasReleased;
  }

  /** The lease and session facts that the end of the body is judged by are those of its entry. */
  ghost predicate EnteredWith(session: Session, es: seq<Event>, i: nat, lease: GateLease, a: nat) {
    && a < |es| && es[a] == Enter(i, true)
    && LeaseOfNow(Run(session, es[..a]), lease)
  }

  lemma {:induction false} LeaseRemembersEntry(session: Session, es: seq<Event>, i: nat)
    requires i < |Run(session, es).calls| && Run(session, es).calls[i].lease.Some?
    ensures exists a: nat :: EnteredWith(session, es, i, Run(session, es).calls[i].lease.value, a)
  {
    if es != [] {
      var before, n := es[..|es| - 1], |es| - 1;
      var s, lease := Run(session, before), Run(session, es).calls[i].lease;
      StepLease(s, es[n], i);
      hide Run, Step;
      if i < |s.calls| && s.calls[i].lease == lease {
        LeaseRemembersEntry(session, before, i);
        var a: nat :| EnteredWith(session, before, i, lease.value, a);
        assert before[..a] == es[..a];
        assert EnteredWith(session, es, i, lease.value, a);
      } else {
        assert EnteredWith(session, es, i, lease.value, n);
      }
    }
  }

  /** The lease of call `k` is that of state `s`, or newly taken. */
  predicate LeaseStep(s: State, e: Event, t: State, i: nat) {
    i < |t.calls| && t.calls[i].lease.Some? ==>
      var lease := t.calls[i].lease;
      (i < |s.calls| && s.calls[i].lease == lease) || (e == Enter(i, true) && LeaseOfNow(s, lease.value))
  }

  predicate LeaseOfNow(s: State, lease: GateLease) {
    && s.current == Some(lease.gate) && GateActive(s, lease.gate)
    && lease.epoch == s.session.epoch && lease.runGeneration == s.session.runGeneration
  }

  lemma FailingLeases(s: State, k: nat)
    requires k < |s.calls|
    ensures |Failing(s, k).calls| == |s.calls| && forall i: nat :: i < |s.calls| ==>
        Failing(s, k).calls[i].lease == s.calls[i].lease
  { hide A.Finished; }

  lemma BodyLeases(s: State, k: nat)
    requires k < |s.calls|
    ensures |Body(s, k).calls| == |s.calls| && forall i: nat :: i < |s.calls| ==>
        Body(s, k).calls[i].lease == s.calls[i].lease
  {
    FailingLeases(s, k);
    hide A.Begun, Failing;
  }

  lemma EnteredLeases(s: State, k: nat, ok: bool, i: nat)
    requires k < |s.calls|
    ensures LeaseStep(s, Enter(k, ok), Entered(s, k, ok), i)
  {
    if ok && s.current.Some? && GateActive(s, s.current.value) {
      var c := s.calls[k].(lease := Some(GateLease(s.current.value, s.session.epoch, s.session.runGeneration)));
      FailingLeases(Logged(Put(s, k, c), Took(k, Gate)), k);
      BodyLeases(Logged(Put(s, k, c), Took(k, Gate)), k);
    }
    hide Failing, Body;
  }

  lemma IoLeaseLeases(s: State, k: nat, ok: bool, i: nat)
    requires k < |s.calls|
    ensures LeaseStep(s, IoLeaseAnswers(k, ok), IoLeaseAnswered(s, k, ok), i)
  {
    FailingLeases(s, k);
    BodyLeases(Logged(Put(s, k, s.calls[k].(ioLease := true)), Took(k, IoLease)), k);
    hide Failing, Body;
  }

  lemma StepLease(s: State, e: Event, i: nat)
    ensures LeaseStep(s, e, Step(s, e), i)
  {
    if Enabled(s, e) {
      match e
      case Enter(k, ok) => EnteredLeases(s, k, ok, i);
      case IoLeaseAnswers(k, ok) => IoLeaseLeases(s, k, ok, i);
      case BodyEnds(k, _) => FailingLeases(s, k);
      case AuthorityAnswers(k, _) => FailingLeases(s, k);
      case _ =>
    }
    hide Entered, IoLeaseAnswered, Failing, A.Finished, LeaseOfNow;
  }
}
