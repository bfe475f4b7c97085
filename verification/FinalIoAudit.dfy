/** The audit ledger of operations that crossed the final I/O boundary. */
module FinalIoAudit {
  import opened Prelude

  datatype AuditOutcome = Completed | Failed | Unknown

  datatype Stats = Stats(admitted: nat, completed: nat, failed: nat, unknown: nat)

  /** A begun audit; the first outcome that it was finished with. */
  datatype Handle = Handle(operation: string, outcome: Option<AuditOutcome>)

  datatype Ledger = Ledger(stats: map<string, Stats>, handles: seq<Handle>)

  function StatsOf(l: Ledger, operation: string): Stats {
    if operation in l.stats then l.stats[operation] else Stats(0, 0, 0, 0)
  }

  function Begun(l: Ledger, operation: string): Ledger {
    var current := StatsOf(l, operation);
    Ledger(l.stats[operation := current.(admitted := current.admitted + 1)], l.handles + [Handle(operation, None)])
  }

  function Finished(l: Ledger, h: nat, outcome: AuditOutcome): Ledger
    requires h < |l.handles|
  {
    var handle := l.handles[h];
    if handle.outcome.Some? then l
    else
      var current := StatsOf(l, handle.operation);
      var after := match outcome
        case Completed => current.(completed := current.completed + 1)
        case Failed => current.(failed := current.failed + 1)
        case Unknown => current.(unknown := current.unknown + 1);
      Ledger(l.stats[handle.operation := after], l.handles[h := handle.(outcome := Some(outcome))])
  }

  /** How many handles of an operation have this outcome; none stands for those still open. */
  function Tally(handles: seq<Handle>, operation: string, outcome: Option<AuditOutcome>): nat {
    if handles == [] then 0
    else
      var n := |handles| - 1;
      Tally(handles[..n], operation, outcome) + (if handles[n] == Handle(operation, outcome) then 1 else 0)
  }

  function Handles(handles: seq<Handle>, operation: string): nat {
    if handles == [] then 0
    else Handles(handles[..|handles| - 1], operation) + (if handles[|handles| - 1].operation == operation then 1 else 0)
  }

  /** The counters count exactly the handles. */
  ghost predicate LedgerOk(l: Ledger) {
    forall op :: StatsOf(l, op) == Stats(Handles(l.handles, op), Tally(l.handles, op, Some(Completed)),
                                         Tally(l.handles, op, Some(Failed)), Tally(l.handles, op, Some(Unknown)))
  }

  lemma BeginKeepsLedger(l: Ledger, operation: string)
    requires LedgerOk(l)
    ensures LedgerOk(Begun(l, operation))
  {
    assert (l.handles + [Handle(operation, None)])[..|l.handles|] == l.handles;
  }

  lemma {:induction false} TallyUpdated(handles: seq<Handle>, h: nat, after: Handle, operation: string,
    outcome: Option<AuditOutcome>)
    requires h < |handles| && after.operation == handles[h].operation
    ensures Tally(handles[h := after], operation, outcome) + (if handles[h] == Handle(operation, outcome) then 1 else 0)
         == Tally(handles, operation, outcome) + (if after == Handle(operation, outcome) then 1 else 0)
    ensures Handles(handles[h := after], operation) == Handles(handles, operation)
  {
    var n := |handles| - 1;
    if h < n {
      TallyUpdated(handles[..n], h, after, operation, outcome);
      assert handles[h := after][..n] == handles[..n][h := after];
    } else {
      assert handles[h := after][..n] == handles[..n];
    }
  }

  lemma FinishKeepsLedger(l: Ledger, h: nat, outcome: AuditOutcome)
    requires LedgerOk(l) && h < |l.handles|
    ensures LedgerOk(Finished(l, h, outcome))
  {
    if l.handles[h].outcome.None? {
      var after := l.handles[h].(outcome := Some(outcome));
      forall op, o ensures Tally(l.handles[h := after], op, o) + (if l.handles[h] == Handle(op, o) then 1 else 0)
                        == Tally(l.handles, op, o) + (if after == Handle(op, o) then 1 else 0)
                   ensures Handles(l.handles[h := after], op) == Handles(l.handles, op) {
        TallyUpdated(l.handles, h, after, op, o);
      }
      hide Tally, Handles;
    }
  }

  /** admitted = completed + failed + unknown + open, for every operation. */
  lemma {:induction false} HandlesBalance(handles: seq<Handle>, operation: string)
    ensures Handles(handles, operation) == Tally(handles, operation, None) + Tally(handles, operation, Some(Completed))
                                         + Tally(handles, operation, Some(Failed))
                                           + Tally(handles, operation, Some(Unknown))
  {
    if handles != [] {
      HandlesBalance(handles[..|handles| - 1], operation);
      var o := handles[|handles| - 1].outcome;
      assert o in {None, Some(Completed), Some(Failed), Some(Unknown)} by {
        match o case None => case Some(x) => match x case Completed => case Failed => case Unknown =>
      }
    }
  }

  lemma AdmittedBalances(l: Ledger, operation: string)
    requires LedgerOk(l)
    ensures var s := StatsOf(l, operation);
            s.admitted == s.completed + s.failed + s.unknown + Tally(l.handles, operation, None)
  {
    HandlesBalance(l.handles, operation);
  }

  /** A second finish of the same handle is void. */
  lemma FirstOutcomeStays(l: Ledger, h: nat, first: AuditOutcome, second: AuditOutcome)
    requires h < |l.handles|
    ensures Finished(Finished(l, h, first), h, second) == Finished(l, h, first)
  {
  }

  // ---------------------------------------------------------------- runs

  datatype Event = Begins(operation: string) | Finishes(handle: nat, outcome: AuditOutcome)

  function Step(l: Ledger, e: Event): Ledger {
    match e
    case Begins(operation) => Begun(l, operation)
    case Finishes(h, outcome) => if h < |l.handles| then Finished(l, h, outcome) else l
  }

  function Run(es: seq<Event>): Ledger {
    if es == [] then Ledger(map[], []) else Step(Run(es[..|es| - 1]), es[|es| - 1])
  }

  function Operations(es: seq<Event>): seq<string> {
    if es == [] then []
    else Operations(es[..|es| - 1]) + if es[|es| - 1].Begins? then [es[|es| - 1].operation] else []
  }

  function FirstFinish(es: seq<Event>, h: nat): Option<AuditOutcome> {
    if es == [] then None
    else
      var before, e := es[..|es| - 1], es[|es| - 1];
      var earlier := FirstFinish(before, h);
      if earlier.Some? then earlier
      else if e.Finishes? && e.handle == h && h < |Operations(before)| then Some(e.outcome)
      else None
  }

  lemma {:induction false} NotFinishedBeforeBegun(es: seq<Event>, h: nat)
    requires h >= |Operations(es)|
    ensures FirstFinish(es, h) == None
  {
    if es != [] { NotFinishedBeforeBegun(es[..|es| - 1], h); }
  }

  /** Over every run there is one handle for each begun operation, in order, with the outcome that it was
      first finished with, and the counters count exactly these. */
  lemma {:induction false} LedgerFollowsEvents(es: seq<Event>)
    ensures var l, ops := Run(es), Operations(es);
            && LedgerOk(l) && |l.handles| == |ops|
            && forall h: nat :: h < |ops| ==> l.handles[h] == Handle(ops[h], FirstFinish(es, h))
  {
    if es != [] {
      var before, e := es[..|es| - 1], es[|es| - 1];
      LedgerFollowsEvents(before);
      match e
      case Begins(operation) =>
        BeginKeepsLedger(Run(before), operation);
        NotFinishedBeforeBegun(before, |Operations(before)|);
      case Finishes(h, outcome) =>
        if h < |Run(before).handles| { FinishKeepsLedger(Run(before), h, outcome); }
      hide LedgerOk;
    }
  }

  class FinalIoAudit {
    var stats: map<string, Stats>
    var handles: seq<Handle>

    ghost function View(): Ledger
      reads this
    {
      Ledger(stats, handles)
    }

    constructor ()
      ensures View() == Ledger(map[], []) && LedgerOk(View())
    {
      stats, handles := map[], [];
    }

    method Begin(operation: string) returns (handle: nat)
      requires LedgerOk(View())
      modifies this
      ensures View() == Begun(old(View()), operation) && LedgerOk(View())
      ensures handle == old(|handles|) < |handles|
    {
      BeginKeepsLedger(View(), operation);
      hide LedgerOk;
      var current := if operation in stats then stats[operation] else Stats(0, 0, 0, 0);
      stats := stats[operation := current.(admitted := current.admitted + 1)];
      handles := handles + [Handle(operation, None)];
      handle := |handles| - 1;
    }

    method Finish(h: nat, outcome: AuditOutcome)
      requires LedgerOk(View()) && h < |handles|
      modifies this
      ensures View() == Finished(old(View()), h, outcome) && LedgerOk(View())
    {
      FinishKeepsLedger(View(), h, outcome);
      hide LedgerOk;
      if handles[h].outcome.Some? { return; }
      var operation := handles[h].operation;
      var current := if operation in stats then stats[operation] else Stats(0, 0, 0, 0);
      handles := handles[h := Handle(operation, Some(outcome))];
      match outcome
      case Completed => stats := stats[operation := current.(completed := current.completed + 1)];
      case Failed => stats := stats[operation := current.(failed := current.failed + 1)];
      case Unknown => stats := stats[operation := current.(unknown := current.unknown + 1)];
    }
  }
}
