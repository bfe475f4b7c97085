/** The barrier object: its methods update the fields in place and keep the state machine's invariant. */
module WalletLockBarrierObject {
  import opened Prelude
  import opened LockBarrier
  import opened LockBarrierTheorems
  import G = GlobalLock

  class WalletLockBarrier {
    var participants: seq<string>
    var windows: seq<Window>
    var operations: seq<Operation>
    var attempt: nat
    var failures: seq<Failure>
    var reported: set<(nat, string)>
    var epoch: Option<string>
    var state: Option<Snapshot>
    var timer: bool
    var running: Option<nat>
    var watchers: set<(nat, nat)>
    ghost var joins: set<nat>
    ghost var recorded: seq<Failure>
    ghost var history: seq<Happening>

    ghost function View(): State
      reads this
    {
      State(participants, windows, operations, attempt, failures, reported, epoch, state, timer, running,
            watchers, joins, recorded, history)
    }

    constructor ()
      ensures View() == Initial() && Inv(View())
    {
      participants, windows, operations, attempt, failures, reported := [], [], [], 0, [], {};
      epoch, state, timer, running := None, None, false, None;
      watchers, joins, recorded, history := {}, {}, [], [];
    }

    method Register(peer: string)
      requires Inv(View())
      modifies this
      ensures View() == Step(old(View()), Event.Register(peer)) && Inv(View())
    {
      hide Inv;
      RegisterKeeps(View(), peer);
      if peer !in participants { participants := participants + [peer]; }
      if state.Some? && !(exists w :: w in windows && w.peer == peer) {
        windows := windows + [Window(peer, None)];
        CommitState();
      }
    }

    method Remove(peer: string)
      requires Inv(View())
      modifies this
      ensures View() == Step(old(View()), Event.Remove(peer)) && Inv(View())
    {
      hide Inv;
      RemoveKeeps(View(), peer);
      participants := Dropped(participants, peer);
      windows := Without(windows, peer);
      CommitState();
    }

    /** Returns the attempt whose joint promise the caller gets. */
    method Begin(newEpoch: string, names: seq<string>) returns (joint: Option<nat>)
      requires Inv(View()) && state.None?
      modifies this
      ensures View() == Step(old(View()), Event.Begin(newEpoch, names)) && Inv(View())
      ensures joint == running && joint.Some?
      ensures attempt == old(attempt) + (if old(running).None? then 1 else 0)
    {
      hide Inv, Retried;
      if Busy(View()) { BusyBeginKeeps(View(), newEpoch, names); } else { BeginKeeps(View(), newEpoch, names); }
      failures, reported, recorded := [], {}, [];
      epoch := Some(newEpoch);
      operations, history := Fresh(names), [];
      joint := StartAttempt();
    }

    method Retry() returns (joint: Option<nat>)
      requires Inv(View())
      modifies this
      ensures View() == Step(old(View()), Event.Retry) && Inv(View())
      ensures joint == running && joint.Some?
    {
      hide Inv, Launch, NewAttempt;
      RetryMoves(View());
      joint := StartAttempt();
    }

    method StartAttempt() returns (joint: Option<nat>)
      modifies this
      ensures View() == Retried(old(View())) && joint == running && joint.Some?
      ensures attempt == old(attempt) + (if Busy(old(View())) then 0 else 1)
    {
      hide NewAttempt, Launch;
      if running.Some? && !(state.Some? && state.value.phase == Failed) { return running; }
      OpenAttempt();
      LaunchOperations();
      joint := running;
    }

    method OpenAttempt()
      modifies this
      ensures View() == NewAttempt(old(View())) && attempt == old(attempt) + 1 && running == Some(attempt)
    {
      hide Waiting, Forgiven;
      attempt := attempt + 1;
      windows := Waiting(participants);
      operations := Forgiven(operations);
      state := Some(Snapshot(Pending, attempt, failures));
      timer := true;
      running, joins := Some(attempt), joins + {attempt};
    }

    method LaunchOperations()
      modifies this
      ensures View() == Launch(old(View()), 0) && running == old(running) && attempt == old(attempt)
    {
      for k := 0 to |operations|
        invariant |operations| == |old(operations)|
        invariant Launch(View(), k) == Launch(old(View()), 0)
        invariant running == old(running) && attempt == old(attempt)
      {
        if !operations[k].done {
          if !operations[k].pending {
            operations := operations[k := operations[k].(pending := true)];
            history := history + [Launched(k)];
          }
          watchers := watchers + {(attempt, k)};
        }
      }
    }

    method Report(peer: string, reportEpoch: string, reportAttempt: nat, error: string)
      requires Inv(View())
      modifies this
      ensures View() == Step(old(View()), Event.Report(peer, reportEpoch, reportAttempt, error)) && Inv(View())
    {
      hide Inv;
      ReportKeeps(View(), peer, reportEpoch, reportAttempt, error);
      if epoch != Some(reportEpoch) || reportAttempt != attempt || !(exists w :: w in windows && w.peer == peer) {
        return;
      }
      if error != "" {
        windows := Marked(windows, peer, error);
        RecordFailure("page:" + peer, error);
      } else {
        windows := Without(windows, peer);
      }
      CommitState();
    }

    /** The timer of the current attempt fires. */
    method TimerFires()
      requires Inv(View()) && timer
      modifies this
      ensures View() == Step(old(View()), Timeout) && Inv(View())
    {
      hide Inv, Commit, TimeoutPages, TimeoutOperations;
      TimeoutKeeps(View());
      timer := false;
      FailPages();
      FailOperations();
      CommitState();
    }

    method FailPages()
      modifies this
      ensures View() == TimeoutPages(old(View()), 0)
    {
      hide Record;
      for k := 0 to |windows|
        invariant |windows| == |old(windows)|
        invariant TimeoutPages(View(), k) == TimeoutPages(old(View()), 0)
      {
        if windows[k].error.None? {
          var peer := windows[k].peer;
          windows := windows[k := Window(peer, Some(PAGE_TIMEOUT))];
          RecordFailure("page:" + peer, PAGE_TIMEOUT);
        }
      }
    }

    method FailOperations()
      modifies this
      ensures View() == TimeoutOperations(old(View()), 0)
    {
      hide Record;
      for k := 0 to |operations|
        invariant |operations| == |old(operations)|
        invariant TimeoutOperations(View(), k) == TimeoutOperations(old(View()), 0)
      {
        if !operations[k].done {
          var name := operations[k].name;
          operations := operations[k := operations[k].(error := Some(name + OPERATION_TIMEOUT))];
          RecordFailure(name, name + OPERATION_TIMEOUT);
        }
      }
    }

    /** The execution of operation `i` settles; `failure` is the message and the details of a
        rejection. Only the continuation of the current attempt records and commits. */
    method OperationSettles(i: nat, failure: Option<(string, string)>)
      requires Inv(View()) && i < |operations| && InFlight(operations[i])
      modifies this
      ensures View() == Step(old(View()), Settle(i, failure)) && Inv(View())
    {
      hide Inv, Settled;
      SettleKeeps(View(), i, failure);
      if failure.None? { Resolves(i); } else { Rejects(i, failure.value); }
    }

    method Resolves(i: nat)
      requires i < |operations|
      modifies this
      ensures View() == Settled(old(View()), i, None)
    {
      hide Commit;
      var current := (attempt, i) in watchers;
      watchers := set w | w in watchers && w.1 != i;
      operations := operations[i := operations[i].(done := true, error := None)];
      history := history + [Succeeded(i)];
      if current { CommitState(); }
    }

    method Rejects(i: nat, failure: (string, string))
      requires i < |operations|
      modifies this
      ensures View() == Settled(old(View()), i, Some(failure))
    {
      hide Commit, Record;
      var current := (attempt, i) in watchers;
      var name := operations[i].name;
      watchers := set w | w in watchers && w.1 != i;
      operations := operations[i := operations[i].(pending := false, error := Some(name + ": " + failure.0))];
      history := history + [Rejected(i)];
      if current {
        RecordFailure(name, failure.1);
        CommitState();
      }
    }

    /** The joint promise of attempt `n` settles. */
    method JointSettles(n: nat)
      requires Inv(View()) && n in joins && forall w :: w in watchers ==> w.0 != n
      modifies this
      ensures View() == Step(old(View()), AllSettled(n)) && Inv(View())
    {
      hide Inv;
      JointKeeps(View(), n);
      joins := joins - {n};
      CommitState();
      if running == Some(n) { running := None; }
    }

    method RecordFailure(source: string, details: string)
      modifies this`failures, this`reported, this`recorded
      ensures View() == Record(old(View()), source, details)
    {
      var key := Key(attempt, source, details);
      if key in reported { return; }
      reported := reported + {key};
      failures := failures + [Failure(attempt, source, details)];
      recorded := recorded + [Failure(attempt, source, details)];
      if |failures| > 4 { failures := [failures[0]] + failures[2..]; }
    }

    method CommitState()
      modifies this
      ensures View() == Commit(old(View()))
    {
      if state.None? { return; }
      var failed := (exists op :: op in operations && op.error.Some?) || (exists w :: w in windows && w.error.Some?);
      var waiting := (exists k :: 0 <= k < |operations| && !operations[k].done) || |windows| > 0;
      state := if failed then Some(Snapshot(Failed, attempt, failures)) else if waiting then
        Some(Snapshot(Pending, attempt, failures)) else None;
      if state.None? { timer := false; }
    }
  }

  /** The worker's lock path: it holds the barrier and remembers the promise of the latest begin. */
  class LockPath {
    const barrier: WalletLockBarrier
    var remembered: Option<nat>

    ghost function View(): G.Worker
      reads this, barrier
    {
      G.Worker(barrier.View(), remembered)
    }

    constructor ()
      ensures View() == G.Run([]) && Inv(barrier.View()) && fresh(barrier)
    {
      barrier := new WalletLockBarrier();
      remembered := None;
    }

    /** performGlobalLock: the attempt whose joint promise the caller gets. */
    method PerformGlobalLock(epoch: string, names: seq<string>) returns (joint: Option<nat>)
      requires Inv(barrier.View())
      modifies this, barrier
      ensures View() == G.Step(old(View()), G.Lock(epoch, names)) && Inv(barrier.View())
      ensures joint.Some?
    {
      if remembered.Some? && !(barrier.state.Some? && barrier.state.value.phase == Failed) { return remembered; }
      if barrier.state.Some? {
        joint := barrier.Retry();
        return;
      }
      joint := barrier.Begin(epoch, names);
      remembered := joint;
    }

    /** The joint promise of attempt `n` settles: the barrier's continuations, then the lock path's. */
    method OnJointSettled(n: nat)
      requires Inv(barrier.View()) && n in barrier.joins && forall w :: w in barrier.watchers ==> w.0 != n
      modifies this, barrier
      ensures View() == G.Step(old(View()), G.Other(AllSettled(n))) && Inv(barrier.View())
    {
      barrier.JointSettles(n);
      if remembered == Some(n) { remembered := None; }
    }
  }
}
