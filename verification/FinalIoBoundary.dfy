/** The wrapper as an object: each method is one stretch of a call between awaits. */
module FinalIoBoundary {
  import opened Prelude
  import opened FinalIo
  import opened FinalIoTheorems
  import A = FinalIoAudit

  class Boundary {
    var gates: seq<bool>
    var current: Option<nat>
    var session: Session
    var calls: seq<Call>
    var ledger: A.Ledger
    ghost var log: seq<Happening>

    ghost function View(): State
      reads this
    {
      State(gates, current, session, calls, ledger, log)
    }

    constructor (session: Session)
      ensures View() == Initial(session) && Inv(View())
    {
      gates, current, calls, log := [], None, [], [];
      this.session := session;
      ledger := A.Ledger(map[], []);
    }

    method StartCall(kind: Kind, options: Options) returns (i: nat)
      requires Inv(View())
      modifies this
      ensures View() == Step(old(View()), Start(kind, options)) && Inv(View())
      ensures i == old(|calls|) < |calls|
    {
      hide Inv;
      StepKeepsInv(View(), Start(kind, options));
      calls := calls + [Call(kind, options, AwaitingAdmission, false, false, None, false, None)];
      i := |calls| - 1;
    }

    method OnAdmission(i: nat, ok: bool)
      requires Inv(View()) && i < |calls| && calls[i].phase == AwaitingAdmission
      modifies this
      ensures View() == Step(old(View()), Event.Admit(i, ok)) && Inv(View())
    {
      hide Inv;
      StepKeepsInv(View(), Event.Admit(i, ok));
      if !ok {
        Settle(i, Failed);
        return;
      }
      calls := calls[i := calls[i].(phase := Entering, admitted := true)];
      log := log + [Took(i, Admission)];
    }

    /** The upgrade session is ensured and the authority checked; up to the next await. */
    method OnEntry(i: nat, ok: bool)
      requires Inv(View()) && i < |calls| && calls[i].phase == Entering
      modifies this
      ensures View() == Step(old(View()), Event.Enter(i, ok)) && Inv(View())
    {
      hide Inv;
      StepKeepsInv(View(), Event.Enter(i, ok));
      hide Failing, Body, FinalIo.Settled;
      if !ok || current.None? || current.value >= |gates| || !gates[current.value] {
        Settle(i, Failed);
        return;
      }
      calls := calls[i := calls[i].(lease := Some(GateLease(current.value, session.epoch, session.runGeneration)))];
      log := log + [Took(i, Gate)];
      if calls[i].aborted { Fail(i); }
      else if calls[i].options.durable { calls := calls[i := calls[i].(phase := AwaitingIoLease)]; }
      else { RunBody(i); }
    }

    method OnIoLease(i: nat, ok: bool)
      requires Inv(View()) && i < |calls| && calls[i].phase == AwaitingIoLease
      modifies this
      ensures View() == Step(old(View()), IoLeaseAnswers(i, ok)) && Inv(View())
    {
      hide Inv;
      StepKeepsInv(View(), IoLeaseAnswers(i, ok));
      hide Failing, Body;
      if !ok {
        Fail(i);
        return;
      }
      calls := calls[i := calls[i].(ioLease := true)];
      log := log + [Took(i, IoLease)];
      RunBody(i);
    }

    method RunBody(i: nat)
      requires i < |calls|
      modifies this
      ensures View() == Body(old(View()), i)
    {
      hide Failing, A.Begun;
      var c := calls[i];
      var active := c.lease.Some? && c.lease.value.gate < |gates| && gates[c.lease.value.gate] && !c.aborted;
      if !active {
        Fail(i);
        return;
      }
      match c.options.audit
      case None => calls := calls[i := c.(phase := Running)];
      case Some(operation) =>
        calls := calls[i := c.(phase := Running, audit := Some(|ledger.handles|))];
        ledger := A.Begun(ledger, operation);
        log := log + [Took(i, Audit)];
    }

    /** The body returns or throws. */
    method OnBodyEnd(i: nat, ok: bool)
      requires Inv(View()) && i < |calls| && calls[i].phase == Running
      modifies this
      ensures View() == Step(old(View()), BodyEnds(i, ok)) && Inv(View())
    {
      hide Inv;
      StepKeepsInv(View(), BodyEnds(i, ok));
      hide Failing;
      var c := calls[i];
      if !ok {
        Fail(i);
        return;
      }
      var active := c.lease.Some? && c.lease.value.gate < |gates| && gates[c.lease.value.gate];
      var replaced := c.lease.Some? && !active && current != Some(c.lease.value.gate);
      var localLock := c.options.allowLocalLock && replaced
        && (session.vault == Locked || session.vault == Uninitialized);
      var ownerTransition := c.options.allowLocalOwnerTransition && replaced && session.vault == Unlocked
        && (session.epoch != c.lease.value.epoch || session.runGeneration != c.lease.value.runGeneration);
      if !localLock && !ownerTransition && (!active || c.aborted) {
        Fail(i);
        return;
      }
      calls := calls[i := c.(phase := Confirming)];
    }

    method OnAuthority(i: nat, ok: bool)
      requires Inv(View()) && i < |calls| && calls[i].phase == Confirming
      modifies this
      ensures View() == Step(old(View()), AuthorityAnswers(i, ok)) && Inv(View())
    {
      hide Inv;
      StepKeepsInv(View(), AuthorityAnswers(i, ok));
      hide Failing, Audited, FinalIo.Leaving;
      if !ok {
        Fail(i);
        return;
      }
      FinishAudit(i, A.Completed);
      Leave(i, Succeeded);
    }

    method OnReleased(i: nat, ok: bool)
      requires Inv(View()) && i < |calls| && calls[i].phase.Releasing?
      modifies this
      ensures View() == Step(old(View()), ReleaseEnds(i, ok)) && Inv(View())
    {
      hide Inv;
      StepKeepsInv(View(), ReleaseEnds(i, ok));
      Settle(i, if ok then calls[i].phase.outcome else Failed);
    }

    /** The catch block, then the finally block up to its await. */
    method Fail(i: nat)
      requires i < |calls|
      modifies this
      ensures View() == Failing(old(View()), i)
    {
      hide Audited, FinalIo.Leaving;
      FinishAudit(i, if calls[i].kind == Write then A.Unknown else A.Failed);
      Leave(i, Failed);
    }

    method FinishAudit(i: nat, outcome: A.AuditOutcome)
      requires i < |calls|
      modifies this`ledger, this`log
      ensures View() == Audited(old(View()), i, outcome)
    {
      hide A.Finished;
      if calls[i].audit.Some? && calls[i].audit.value < |ledger.handles| {
        ledger := A.Finished(ledger, calls[i].audit.value, outcome);
        log := log + [Gave(i, Audit)];
      }
    }

    method Leave(i: nat, outcome: Outcome)
      requires i < |calls|
      modifies this`calls, this`log
      ensures View() == Leaving(old(View()), i, outcome)
    {
      if calls[i].ioLease { log := log + [Gave(i, IoLease)]; }
      calls := calls[i := calls[i].(phase := Releasing(outcome))];
    }

    method Settle(i: nat, outcome: Outcome)
      requires i < |calls|
      modifies this`calls, this`log
      ensures View() == Settled(old(View()), i, outcome)
    {
      if calls[i].lease.Some? { log := log + [Gave(i, Gate)]; }
      if calls[i].admitted { log := log + [Gave(i, Admission)]; }
      calls := calls[i := calls[i].(phase := Done(outcome))];
    }

    /** closeCoordinatorUpgradeSession. */
    method CloseUpgradeSession()
      requires Inv(View())
      modifies this
      ensures View() == Step(old(View()), CloseSession) && Inv(View())
    {
      hide Inv;
      StepKeepsInv(View(), CloseSession);
      if current.Some? && current.value < |gates| { gates := gates[current.value := false]; }
      current := None;
    }

    /** ensureCoordinatorUpgradeSession without a usable gate: the old one is closed, and a new one
        takes its place if the handshake is accepted. */
    method ReplaceUpgradeSession(accepted: bool)
      requires Inv(View())
      modifies this
      ensures View() == Step(old(View()), if accepted then ReplaceGate else RejectHandshake) && Inv(View())
    {
      hide Inv;
      StepKeepsInv(View(), if accepted then ReplaceGate else RejectHandshake);
      if current.Some? && current.value < |gates| { gates := gates[current.value := false]; }
      if accepted {
        gates := gates + [true];
        current := Some(|gates| - 1);
      }
    }
  }
}
