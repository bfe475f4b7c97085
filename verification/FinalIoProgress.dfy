/** What each answer decides in the final I/O wrapper, and that a call succeeds exactly if every answer
    to it came out well at its moment. */
module FinalIoProgress {
  import opened Prelude
  import opened FinalIo
  import T = FinalIoTheorems
  import A = FinalIoAudit

  // ------------------------------------------------------- what each answer decides

  /** The gate of the lease is active and the call not aborted. */
  predicate Active(s: State, gate: nat, c: Call) { gate < |s.gates| && s.gates[gate] && !c.aborted }

  /** The way past the gate is free. */
  predicate Passes(s: State, i: nat) {
    && i < |s.calls|
    && s.current.Some? && Active(s, s.current.value, s.calls[i])
  }

  /** A body that has begun has its own open audit handle iff an audit was asked for. */
  predicate Begun(s: State, t: State, i: nat) {
    && i < |s.calls| && i < |t.calls|
    && (match s.calls[i].options.audit
        case None => t.calls[i].audit == None && t.ledger == s.ledger
        case Some(op) =>
          && t.calls[i].audit == Some(|s.ledger.handles|)
          && t.ledger.handles == s.ledger.handles + [A.Handle(op, None)])
  }

  predicate Lost(p: Phase) { p == Releasing(Failed) || p == Done(Failed) }

  lemma AdmissionDecides(s: State, i: nat, ok: bool)
    requires T.Inv(s) && Enabled(s, Admit(i, ok))
    ensures var t := Step(s, Admit(i, ok));
            |t.calls| == |s.calls| && t.calls[i].phase == if ok then Entering else Done(Failed)
  { hide T.Inv; }

  /** The entry passes the gate iff it was let in, the current gate is active and the call not aborted;
      then it awaits the I/O lease if it is durable and runs if not, on the lease of that gate. */
  lemma EntryDecides(s: State, i: nat, ok: bool)
    requires T.Inv(s) && Enabled(s, Enter(i, ok))
    ensures var t := Step(s, Enter(i, ok));
            var c, d := s.calls[i], t.calls[i];
            && |t.calls| == |s.calls|
            && (d.phase == AwaitingIoLease <==> ok && Passes(s, i) && c.options.durable)
            && (d.phase == Running <==> ok && Passes(s, i) && !c.options.durable)
            && (Lost(d.phase) <==> !(ok && Passes(s, i)))
            && (ok && Passes(s, i) ==>
                 d.lease == Some(GateLease(s.current.value, s.session.epoch, s.session.runGeneration)))
            && (d.phase == Running ==> Begun(s, t, i))
  {
    assert T.CallOk(s.calls[i]);
    hide T.Inv, A.Finished;
  }

  /** A durable call whose lease is answered runs iff it got the lease and its gate is still active. */
  lemma LeaseDecides(s: State, i: nat, ok: bool)
    requires T.Inv(s) && Enabled(s, IoLeaseAnswers(i, ok))
    ensures s.calls[i].lease.Some?
    ensures var t := Step(s, IoLeaseAnswers(i, ok));
            var well := ok && Active(s, s.calls[i].lease.value.gate, s.calls[i]);
            && |t.calls| == |s.calls|
            && t.calls[i].phase == (if well then Running else Releasing(Failed))
            && t.calls[i].ioLease == ok && t.calls[i].lease == s.calls[i].lease
            && (well ==> Begun(s, t, i))
  {
    assert T.CallOk(s.calls[i]);
    hide T.Inv, A.Finished;
  }

  lemma BodyDecides(s: State, i: nat, ok: bool)
    requires T.Inv(s) && Enabled(s, BodyEnds(i, ok))
    ensures var t := Step(s, BodyEnds(i, ok));
            |t.calls| == |s.calls| && t.calls[i].phase == if ok && T.Fitting(s, i) then Confirming
              else Releasing(Failed)
  {
    assert T.CallOk(s.calls[i]);
    hide T.Inv, A.Finished;
  }

  lemma AuthorityDecides(s: State, i: nat, ok: bool)
    requires T.Inv(s) && Enabled(s, AuthorityAnswers(i, ok))
    ensures var t := Step(s, AuthorityAnswers(i, ok));
            |t.calls| == |s.calls| && t.calls[i].phase == Releasing(if ok then Succeeded else Failed)
  { hide T.Inv, A.Finished; }

  lemma ReleaseDecides(s: State, i: nat, ok: bool)
    requires T.Inv(s) && Enabled(s, ReleaseEnds(i, ok))
    ensures var t := Step(s, ReleaseEnds(i, ok));
            && |t.calls| == |s.calls|
            && t.calls[i].phase == Done(if ok && s.calls[i].phase == Releasing(Succeeded) then Succeeded else Failed)
  {
    hide T.Inv;
    match s.calls[i].phase.outcome case Succeeded => case Failed =>
  }

  /** What the environment does to the gates and to the calls: closing deactivates the current gate,
      a replacement is active and current, and an abort marks its call; no other event touches them. */
  lemma EnvironmentDecides(s: State, e: Event)
    requires T.Inv(s)
    ensures var t := Step(s, e);
            match e
            case CloseSession =>
              t.current == None && |t.gates| == |s.gates|
                && (forall g :: 0 <= g < |s.gates| ==> (t.gates[g] <==> s.gates[g] && s.current != Some(g)))
            case ReplaceGate =>
              && |t.gates| == |s.gates| + 1 && t.current == Some(|s.gates|) && t.gates[|s.gates|]
              && (forall g :: 0 <= g < |s.gates| ==> (t.gates[g] <==> s.gates[g] && s.current != Some(g)))
            case RejectHandshake =>
              t.current == s.current && |t.gates| == |s.gates|
                && (forall g :: 0 <= g < |s.gates| ==> (t.gates[g] <==> s.gates[g] && s.current != Some(g)))
            case ChangeSession(session) => t == s.(session := session)
            case Abort(i) => t == s || (i < |s.calls| && t == s.(calls := s.calls[i := s.calls[i].(aborted := true)]))
            case Start(kind, options) =>
              t == s.(calls := s.calls + [Call(kind, options, AwaitingAdmission, false, false, None, false, None)])
            case _ => t.gates == s.gates && t.current == s.current && t.session == s.session
  { hide T.Inv, A.Begun, A.Finished; }

  // ------------------------------------------------------------------ over runs

  /** An answer to the call that comes when it is awaited. */
  predicate Answer(s: State, e: Event, i: nat) {
    T.Target(e) == Some(i) && !e.Abort? && Enabled(s, e)
  }

  /** The answer is good, and comes at a good moment. */
  predicate Well(s: State, e: Event, i: nat) {
    match e
    case Admit(_, ok) => ok
    case Enter(_, ok) => ok && Passes(s, i)
    case IoLeaseAnswers(_, ok) => ok && i < |s.calls| && s.calls[i].lease.Some?
      && Active(s, s.calls[i].lease.value.gate, s.calls[i])
    case BodyEnds(_, ok) => ok && T.Fitting(s, i)
    case AuthorityAnswers(_, ok) => ok
    case ReleaseEnds(_, ok) => ok
    case _ => false
  }

  predicate AllWell(session: Session, es: seq<Event>, i: nat) {
    es == [] ||
    (var before, e := es[..|es| - 1], es[|es| - 1];
     AllWell(session, before, i) && (Answer(Run(session, before), e, i) ==> Well(Run(session, before), e, i)))
  }

  function Answers(session: Session, es: seq<Event>, i: nat): nat {
    if es == [] then 0
    else
      var before := es[..|es| - 1];
      Answers(session, before, i) + (if Answer(Run(session, before), es[|es| - 1], i) then 1 else 0)
  }

  /** Where a call stands after so many good answers. */
  function Stage(n: nat, durable: bool): Phase {
    if n == 0 then AwaitingAdmission
    else if n == 1 then Entering
    else if durable && n == 2 then AwaitingIoLease
    else
      var m := if durable then n - 1 else n;
      if m == 2 then Running else if m == 3 then Confirming else if m == 4 then Releasing(Succeeded)
        else Done(Succeeded)
  }

  /** One answer moves the call on by one stage if all is well, and else for good to its failure. */
  ghost predicate MovesOn(c: Call, d: Call, answer: bool, well: bool) {
    && d.options == c.options
    && (!answer ==> d.phase == c.phase)
    && (answer && (Lost(c.phase) || !well) ==> Lost(d.phase))
    && (answer && !Lost(c.phase) && well ==>
         forall n: nat :: c.phase == Stage(n, c.options.durable) ==> d.phase == Stage(n + 1, c.options.durable))
    && (Lost(c.phase) ==> Lost(d.phase))
  }

  lemma AnswerMoves(s: State, e: Event, i: nat)
    requires T.Inv(s) && Answer(s, e, i)
    ensures i < |s.calls| && i < |Step(s, e).calls|
    ensures MovesOn(s.calls[i], Step(s, e).calls[i], true, Well(s, e, i))
  {
    OptionsStay(s, e, i);
    match e
    case Admit(_, ok) => AdmissionDecides(s, i, ok);
    case Enter(_, ok) => EntryDecides(s, i, ok);
    case IoLeaseAnswers(_, ok) => LeaseDecides(s, i, ok); DurableAwaits(s, i);
    case BodyEnds(_, ok) => BodyDecides(s, i, ok);
    case AuthorityAnswers(_, ok) => AuthorityDecides(s, i, ok);
    case ReleaseEnds(_, ok) => ReleaseDecides(s, i, ok);
    hide T.Inv, Step, T.Fitting, Passes, Active, Begun;
  }

  lemma DurableAwaits(s: State, i: nat)
    requires T.Inv(s) && i < |s.calls| && s.calls[i].phase == AwaitingIoLease
    ensures s.calls[i].options.durable
  { assert T.CallOk(s.calls[i]); }

  lemma OptionsStay(s: State, e: Event, i: nat)
    requires T.Inv(s) && i < |s.calls|
    ensures i < |Step(s, e).calls| && Step(s, e).calls[i].options == s.calls[i].options
  {
    if T.Target(e) == Some(i) && Enabled(s, e) { OwnOptionsStay(s, e, i); } else { T.OtherCalls(s, e, i); }
    hide *;
  }

  lemma OwnOptionsStay(s: State, e: Event, i: nat)
    requires i < |s.calls| && T.Target(e) == Some(i) && Enabled(s, e)
    ensures i < |Step(s, e).calls| && Step(s, e).calls[i].options == s.calls[i].options
  { hide A.Begun, A.Finished, LeaseActive, LocalLockReplaced, OwnerTransitionReplaced; }

  lemma WithoutAnswer(s: State, e: Event, i: nat)
    requires T.Inv(s) && i < |s.calls| && !Answer(s, e, i)
    ensures i < |Step(s, e).calls| && MovesOn(s.calls[i], Step(s, e).calls[i], false, false)
  {
    OptionsStay(s, e, i);
    if !(e.Abort? && e.call == i) { T.OtherCalls(s, e, i); }
    hide T.Inv, A.Begun, A.Finished, T.AuditOk;
  }

  /** In every run a call to which all answers came out well stands just where their number says, up to
      its success; and one with a bad answer has failed or is about to. */
  lemma {:induction false} SucceedsIffAllWell(session: Session, es: seq<Event>, i: nat)
    ensures var s := Run(session, es);
            if i >= |s.calls| then AllWell(session, es, i) && Answers(session, es, i) == 0
            else if AllWell(session, es, i) then
              s.calls[i].phase == Stage(Answers(session, es, i), s.calls[i].options.durable)
            else Lost(s.calls[i].phase)
  {
    if es != [] {
      var before, e := es[..|es| - 1], es[|es| - 1];
      var s := Run(session, before);
      SucceedsIffAllWell(session, before, i);
      T.RunKeepsInv(session, before);
      T.CallsStay(s, e);
      if Answer(s, e, i) { AnswerMoves(s, e, i); }
      else if i < |s.calls| { WithoutAnswer(s, e, i); }
      else if i < |Step(s, e).calls| { NewCallWaits(s, e, i); }
    }
    hide Step, T.Inv, Well;
  }

  lemma NewCallWaits(s: State, e: Event, i: nat)
    requires T.Inv(s) && |s.calls| <= i < |Step(s, e).calls|
    ensures Step(s, e).calls[i].phase == AwaitingAdmission
  { hide T.Inv, A.Begun, A.Finished; }

  /** A call that is over succeeded iff admission, entry, lease, body, authority and release each came
      out well at its moment; then it had all of these answers. */
  lemma ExactFromTheStart(session: Session, es: seq<Event>, i: nat)
    requires i < |Run(session, es).calls| && Run(session, es).calls[i].phase.Done?
    ensures Run(session, es).calls[i].phase == Done(Succeeded) <==> AllWell(session, es, i)
    ensures AllWell(session, es, i) ==>
              Answers(session, es, i) >= if Run(session, es).calls[i].options.durable then 6 else 5
  {
    SucceedsIffAllWell(session, es, i);
    hide Run, AllWell, Answers;
  }

  /** The call was aborted exactly if an abort has come since it began. */
  predicate AbortCame(session: Session, es: seq<Event>, i: nat) {
    es != [] &&
    (AbortCame(session, es[..|es| - 1], i) || (es[|es| - 1] == Abort(i) && i < |Run(session, es[..|es| - 1]).calls|))
  }

  lemma {:induction false} AbortedIffAbortCame(session: Session, es: seq<Event>, i: nat)
    ensures i < |Run(session, es).calls| ==> (Run(session, es).calls[i].aborted <==> AbortCame(session, es, i))
    ensures i >= |Run(session, es).calls| ==> !AbortCame(session, es, i)
  {
    if es != [] {
      var before := es[..|es| - 1];
      AbortedIffAbortCame(session, before, i);
      T.RunKeepsInv(session, before);
      AbortStep(Run(session, before), es[|es| - 1], i);
    }
    hide Step, T.Inv;
  }

  lemma AbortStep(s: State, e: Event, i: nat)
    requires T.Inv(s)
    ensures |s.calls| <= |Step(s, e).calls|
    ensures i < |s.calls| ==> (Step(s, e).calls[i].aborted <==> s.calls[i].aborted || e == Abort(i))
    ensures |s.calls| <= i < |Step(s, e).calls| ==> !Step(s, e).calls[i].aborted
  {
    T.CallsStay(s, e);
    hide T.Inv, A.Begun, A.Finished, LeaseActive, LocalLockReplaced, OwnerTransitionReplaced;
  }
}
