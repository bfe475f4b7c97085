/** The worker's lock path around the barrier: a lock returns the promise that it remembers, retries
    the cycle in progress, or begins a new one. */
module GlobalLock {
  import opened Prelude
  import B = LockBarrier
  import T = LockBarrierTheorems

  /** `remembered` is globalLockRunning, named by the attempt whose joint promise it follows. */
  datatype Worker = Worker(barrier: B.State, remembered: Option<nat>)

  datatype Event =
    | Lock(epoch: string, names: seq<string>)   // the fresh session epoch and the cleanup operations
    | Other(event: B.Event)                     // registrations, reports, time-outs and settlements

  predicate Failed(s: B.State) { s.state.Some? && s.state.value.phase == B.Failed }

  /** performGlobalLock. */
  function Locked(w: Worker, epoch: string, names: seq<string>): Worker {
    if w.remembered.Some? && !Failed(w.barrier) then w
    else if w.barrier.state.Some? then w.(barrier := B.Retried(w.barrier))
    else
      var t := B.Begun(w.barrier, epoch, names);
      Worker(t, t.running)
  }

  ghost function Step(w: Worker, e: Event): Worker {
    match e
    case Lock(epoch, names) => Locked(w, epoch, names)
    case Other(Begin(_, _)) => w
    case Other(Retry) => w
    case Other(AllSettled(n)) =>
      if !B.Enabled(w.barrier, B.AllSettled(n)) then w
      else Worker(B.JointlySettled(w.barrier, n), if w.remembered == Some(n) then None else w.remembered)
    case Other(b) => w.(barrier := B.Step(w.barrier, b))
  }

  ghost function Run(es: seq<Event>): Worker {
    if es == [] then Worker(B.Initial(), None) else Step(Run(es[..|es| - 1]), es[|es| - 1])
  }

  // ------------------------------------------------ runs of the worker and of the barrier

  /** What the barrier sees of one event of the worker. */
  ghost function Seen(w: Worker, e: Event): seq<B.Event> {
    match e
    case Lock(epoch, names) =>
      if w.remembered.Some? && !Failed(w.barrier) then []
      else if w.barrier.state.Some? then [B.Retry]
      else [B.Begin(epoch, names)]
    case Other(Begin(_, _)) => []
    case Other(Retry) => []
    case Other(b) => [b]
  }

  ghost function Trace(es: seq<Event>): seq<B.Event> {
    if es == [] then [] else Trace(es[..|es| - 1]) + Seen(Run(es[..|es| - 1]), es[|es| - 1])
  }

  lemma SeenSteps(w: Worker, e: Event)
    ensures |Seen(w, e)| <= 1
    ensures Step(w, e).barrier == if Seen(w, e) == [] then w.barrier else B.Step(w.barrier, Seen(w, e)[0])
  { hide B.Begun, B.Retried, B.Registered, B.Removed, B.Reported, B.TimedOut, B.Settled, B.JointlySettled; }

  /** Every run of the worker is a run of the barrier: all that holds of the one holds of the other. */
  lemma {:induction false} WorkerRunsBarrier(es: seq<Event>)
    ensures Run(es).barrier == B.Run(Trace(es))
  {
    if es != [] {
      var before, e := es[..|es| - 1], es[|es| - 1];
      WorkerRunsBarrier(before);
      SeenSteps(Run(before), e);
      var seen := Seen(Run(before), e);
      if seen == [] { assert Trace(es) == Trace(before); }
      else {
        assert seen == [seen[0]];
        T.RunOne(Trace(before), seen[0]);
      }
      hide B.Run, B.Step, Seen, Step;
    }
  }

  lemma WorkerInv(es: seq<Event>)
    ensures T.Inv(Run(es).barrier)
  {
    WorkerRunsBarrier(es);
    T.RunKeepsInv(Trace(es));
    hide *;
  }

  // ---------------------------------------------------------------- theorems

  /** The lock started a new cycle: a new attempt under the given epoch, with every operation that it
      brought in flight and every page waited for. */
  ghost predicate StartsCycle(w: Worker, t: Worker, epoch: string, names: seq<string>) {
    && t.barrier.attempt == w.barrier.attempt + 1
    && t.barrier.epoch == Some(epoch)
    && t.barrier.state == Some(B.Snapshot(B.Pending, t.barrier.attempt, []))
    && |t.barrier.operations| == |names|
    && (forall i: nat :: i < |names| ==> t.barrier.operations[i] == B.Operation(names[i], true, false, None))
    && (forall p :: B.Has(t.barrier.windows, p) <==> p in w.barrier.participants)
    && t.remembered == Some(t.barrier.attempt)
  }

  /** A lock starts its cleanup exactly when no lock is remembered, the barrier is open, and the
      barrier itself keeps no promise. */
  lemma LockStartsIff(es: seq<Event>, epoch: string, names: seq<string>)
    requires Run(es).barrier.epoch != Some(epoch)
    ensures var w := Run(es);
            StartsCycle(w, Locked(w, epoch, names), epoch, names) <==>
            w.remembered.None? && w.barrier.state.None? && w.barrier.running.None?
  {
    WorkerInv(es);
    var w := Run(es);
    hide Run;
    if w.barrier.state.Some? {
      RetryKeepsEpoch(w.barrier);
    } else if w.remembered.None? {
      if B.Busy(w.barrier) { T.BusyBeginKeeps(w.barrier, epoch, names); }
      else { BeginStarts(w.barrier, epoch, names); }
    }
    hide T.Inv, B.Begun, B.Retried;
  }

  lemma RetryKeepsEpoch(s: B.State)
    requires T.Inv(s)
    ensures B.Retried(s).epoch == s.epoch
  {
    if !B.Busy(s) {
      T.NewAttemptWatches(s);
      T.LaunchKeeps(B.NewAttempt(s), 0);
    }
    hide T.LivesOk, T.WatchOk, B.Launch;
  }

  lemma BeginStarts(s: B.State, epoch: string, names: seq<string>)
    requires T.Inv(s) && s.state.None? && !B.Busy(s)
    ensures var t := B.Begun(s, epoch, names);
            StartsCycle(Worker(s, None), Worker(t, t.running), epoch, names)
  {
    var t := B.Begun(s, epoch, names);
    T.BeginKeeps(s, epoch, names);
    BegunOperations(s, epoch, names);
    forall i: nat | i < |names| ensures t.operations[i] == B.Operation(names[i], true, false, None) {
      T.NothingRejected(t, i);
    }
    RunningIsAttempt(s, epoch, names);
    hide T.Inv, B.Begun;
  }

  lemma RunningIsAttempt(s: B.State, epoch: string, names: seq<string>)
    requires T.Inv(s) && s.state.None? && !B.Busy(s)
    ensures var t := B.Begun(s, epoch, names); t.running == Some(t.attempt)
  {
    BegunLaunch(s, epoch, names);
    hide T.Inv, B.Launch, B.Begun;
  }

  ghost function BeforeLaunch(s: B.State, epoch: string, names: seq<string>): B.State {
    B.NewAttempt(s.(failures := [], reported := {}, recorded := [], epoch := Some(epoch),
      operations := B.Fresh(names), history := []))
  }

  lemma BegunLaunch(s: B.State, epoch: string, names: seq<string>)
    requires T.Inv(s) && s.state.None? && !B.Busy(s)
    ensures var n, t := BeforeLaunch(s, epoch, names), B.Begun(s, epoch, names);
            && t == B.Launch(n, 0)
            && t == n.(operations := t.operations, watchers := t.watchers, history := t.history)
            && |t.operations| == |n.operations|
            && forall j :: 0 <= j < |n.operations| ==>
              t.operations[j].(pending := n.operations[j].pending) == n.operations[j]
  {
    var n := BeforeLaunch(s, epoch, names);
    T.NothingInFlight(s);
    assert s.watchers == {};
    assert T.LivesOk(n.operations, n.history);
    T.LaunchKeeps(n, 0);
    hide B.Launch, T.LivesOk, T.LogOk, T.PagesOk;
  }

  lemma BegunOperations(s: B.State, epoch: string, names: seq<string>)
    requires T.Inv(s) && s.state.None? && !B.Busy(s)
    ensures var t := B.Begun(s, epoch, names);
            && |t.operations| == |names|
            && forall i: nat :: i < |names| ==>
                 t.operations[i].name == names[i] && !t.operations[i].done && t.operations[i].error.None?
  {
    BegunLaunch(s, epoch, names);
    var n, t := BeforeLaunch(s, epoch, names), B.Begun(s, epoch, names);
    forall i: nat | i < |names|
      ensures t.operations[i].name == names[i] && !t.operations[i].done && t.operations[i].error.None?
    {
      assert t.operations[i].(pending := n.operations[i].pending) == n.operations[i];
    }
    hide T.Inv, B.Launch, B.Begun;
  }

  /** The lock hands its operations over to an open barrier that starts none of them. */
  ghost predicate Strands(t: Worker, epoch: string, names: seq<string>) {
    t.barrier.epoch == Some(epoch) && t.barrier.state.None? && t.barrier.operations == B.Fresh(names)
  }

  /** The attempt under way was started by a lock that retried. */
  ghost predicate ByRetry(es: seq<Event>) {
    if es == [] then false
    else
      var before := es[..|es| - 1];
      if Run(es).barrier.attempt != Run(before).barrier.attempt then Run(before).barrier.state.Some?
        else ByRetry(before)
  }

  /** What a begin leaves, the lock path remembers: only a retry's promise is kept unremembered. */
  lemma {:induction false} OnlyRetriesAreForgotten(es: seq<Event>)
    ensures !ByRetry(es) && Run(es).barrier.running.Some? ==> Run(es).remembered == Run(es).barrier.running
  {
    if es != [] {
      var before, e := es[..|es| - 1], es[|es| - 1];
      OnlyRetriesAreForgotten(before);
      WorkerInv(before);
      WorkerInv(es);
      var w, t := Run(before), Run(es);
      if e.Lock? { LockRemembers(w, e.epoch, e.names); }
      else if e.event.AllSettled? { JointForgets(w, e.event.attempt); }
      else { OthersKeepPromise(w, e); }
      hide Run, Step, T.Inv;
      assert t == Step(w, e);
    }
  }

  lemma LockRemembers(w: Worker, epoch: string, names: seq<string>)
    requires T.Inv(w.barrier)
    ensures var t := Step(w, Lock(epoch, names));
            if t.barrier.attempt != w.barrier.attempt then w.barrier.state.Some? || t.remembered == t.barrier.running
            else t.barrier.running == w.barrier.running &&
                 (t.remembered == w.remembered || t.remembered == t.barrier.running)
  {
    if w.barrier.state.Some? {
      T.RetryMoves(w.barrier);
      if B.Busy(w.barrier) { assert B.Retried(w.barrier) == w.barrier; }
      else { RetryRaises(w.barrier); }
    } else {
      if B.Busy(w.barrier) { T.BusyBeginKeeps(w.barrier, epoch, names); }
      else { T.BeginKeeps(w.barrier, epoch, names); }
    }
    hide T.Inv, B.Begun, B.Retried, T.Moves;
  }

  lemma RetryRaises(s: B.State)
    requires T.Inv(s) && !B.Busy(s)
    ensures B.Retried(s).attempt == s.attempt + 1
  {
    T.RetryKeeps(s);
    hide T.Inv, B.Launch, B.NewAttempt;
  }

  lemma JointForgets(w: Worker, n: nat)
    requires T.Inv(w.barrier)
    ensures var t := Step(w, Other(B.AllSettled(n)));
            && t.barrier.attempt == w.barrier.attempt
            && (t.barrier.running.Some? ==> t.barrier.running == w.barrier.running)
            && (t == w || t.remembered == (if w.remembered == Some(n) then None else w.remembered))
            && (t.barrier.running.Some? && t != w ==> w.barrier.running != Some(n))
  { hide T.Inv, B.HasErrors, B.AllDone; }

  lemma OthersKeepPromise(w: Worker, e: Event)
    requires T.Inv(w.barrier) && e.Other? && !e.event.AllSettled?
    ensures var t := Step(w, e);
            t.remembered == w.remembered && t.barrier.attempt == w.barrier.attempt
              && t.barrier.running == w.barrier.running
  {
    var s := w.barrier;
    if B.Enabled(s, e.event) {
      match e.event
      case Register(p) => RegisterKeepsPromise(s, p);
      case Remove(p) => RemoveKeepsPromise(s, p);
      case Report(p, epoch, attempt, error) => ReportKeepsPromise(s, p, epoch, attempt, error);
      case Timeout => TimeoutKeepsPromise(s);
      case Settle(i, failure) => SettleKeepsPromise(s, i, failure);
      case _ =>
    }
    hide T.Inv, B.Registered, B.Removed, B.Reported, B.TimedOut, B.Settled;
  }

  predicate SamePromise(s: B.State, t: B.State) { t.attempt == s.attempt && t.running == s.running }

  lemma CommitKeepsPromise(s: B.State)
    ensures SamePromise(s, B.Commit(s))
  { hide B.HasErrors, B.AllDone; }

  lemma RegisterKeepsPromise(s: B.State, p: string)
    ensures SamePromise(s, B.Registered(s, p))
  {
    var s1 := if p in s.participants then s else s.(participants := s.participants + [p]);
    CommitKeepsPromise(s1.(windows := s.windows + [B.Window(p, None)]));
    hide B.Commit, B.Has;
  }

  lemma RemoveKeepsPromise(s: B.State, p: string)
    ensures SamePromise(s, B.Removed(s, p))
  {
    CommitKeepsPromise(s.(participants := B.Dropped(s.participants, p), windows := B.Without(s.windows, p)));
    hide B.Commit, B.Dropped, B.Without;
  }

  lemma ReportKeepsPromise(s: B.State, p: string, epoch: string, attempt: nat, error: string)
    ensures SamePromise(s, B.Reported(s, p, epoch, attempt, error))
  {
    CommitKeepsPromise(B.Record(s.(windows := B.Marked(s.windows, p, error)), "page:" + p, error));
    CommitKeepsPromise(s.(windows := B.Without(s.windows, p)));
    hide B.Commit, B.Marked, B.Without, B.Has;
  }

  lemma SettleKeepsPromise(s: B.State, i: nat, failure: Option<(string, string)>)
    requires i < |s.operations|
    ensures SamePromise(s, B.Settled(s, i, failure))
  { hide B.HasErrors, B.AllDone; }

  lemma TimeoutKeepsPromise(s: B.State)
    requires T.Inv(s)
    ensures B.TimedOut(s).attempt == s.attempt && B.TimedOut(s).running == s.running
  {
    var s0 := s.(timer := false);
    T.TimeoutPagesEffect(s0, 0);
    T.TimeoutOperationsEffect(B.TimeoutPages(s0, 0), 0);
    hide T.PagesOk, T.LivesOk, T.WatchOk, T.StateOk, B.HasErrors, B.AllDone, B.TimeoutPages, B.TimeoutOperations;
  }

  /** A lock strands its cleanup exactly when it remembers no lock and finds the barrier open with a
      promise kept; and then that promise is of an attempt that a retry started, whose joint promise
      the lock path did not remember. */
  lemma LockStrandsIff(es: seq<Event>, epoch: string, names: seq<string>)
    requires Run(es).barrier.epoch != Some(epoch)
    ensures var w := Run(es);
            Strands(Locked(w, epoch, names), epoch, names) <==>
            w.remembered.None? && w.barrier.state.None? && w.barrier.running.Some?
    ensures Strands(Locked(Run(es), epoch, names), epoch, names) ==> ByRetry(es)
  {
    WorkerInv(es);
    OnlyRetriesAreForgotten(es);
    var w := Run(es);
    if w.barrier.state.Some? { RetryKeepsEpoch(w.barrier); }
    else if B.Busy(w.barrier) { T.BusyBeginKeeps(w.barrier, epoch, names); }
    else { T.BeginKeeps(w.barrier, epoch, names); }
    hide Run, T.Inv, B.Begun, B.Retried, ByRetry;
  }

  /** An open barrier of the worker has all cleanup done exactly if the latest begin did not strand. */
  lemma OpenWalletIsClean(es: seq<Event>)
    requires Run(es).barrier.state.None?
    ensures B.AllDone(Run(es).barrier) <==> !T.Stranded(Trace(es))
  {
    hide *;
    WorkerRunsBarrier(es);
    T.OpenIsDoneIff(Trace(es));
  }

  // ------------------------------------------------------------ the reachable run

  /** One operation, no page: where the only operation stands, and which promise is kept. */
  ghost predicate Alone(w: Worker, attempt: nat, pending: bool, kept: bool, remembered: bool) {
    var s := w.barrier;
    && T.Inv(s) && s.participants == [] && s.windows == [] && s.attempt == attempt
    && |s.operations| == 1 && !s.operations[0].done && s.operations[0].pending == pending
    && s.state.Some? && (s.state.value.phase == B.Failed <==> !pending)
    && (attempt in s.joins <==> kept)
    && w.remembered == if remembered then Some(1) else None
  }

  lemma FirstLock(epoch: string, name: string)
    ensures Alone(Step(Run([]), Lock(epoch, [name])), 1, true, true, true)
  {
    assert T.Inv(B.Initial());
    T.BeginKeeps(B.Initial(), epoch, [name]);
    BegunOperations(B.Initial(), epoch, [name]);
    var t := B.Begun(B.Initial(), epoch, [name]);
    T.NothingRejected(t, 0);
    RunningIsAttempt(B.Initial(), epoch, [name]);
    assert t.windows == [] by { T.NoneWaits(t.windows); }
    ParticipantsStay(B.Initial(), epoch, [name]);
    hide B.Begun;
  }

  lemma ParticipantsStay(s: B.State, epoch: string, names: seq<string>)
    requires T.Inv(s) && s.state.None? && !B.Busy(s)
    ensures B.Begun(s, epoch, names).participants == s.participants
  {
    BegunLaunch(s, epoch, names);
    hide B.Begun, B.Launch, T.Inv;
  }

  lemma Rejected(w: Worker, message: string, details: string)
    requires Alone(w, 1, true, true, true)
    ensures Alone(Step(w, Other(B.Settle(0, Some((message, details))))), 1, false, true, true)
  {
    hide T.Inv, B.Settled;
    T.SettleKeeps(w.barrier, 0, Some((message, details)));
    RejectionShows(w.barrier, message, details);
  }

  lemma RejectionShows(s: B.State, message: string, details: string)
    requires T.Inv(s) && |s.operations| == 1 && B.InFlight(s.operations[0])
    ensures var t := B.Settled(s, 0, Some((message, details)));
            && |t.operations| == 1 && !t.operations[0].done && !t.operations[0].pending && t.joins == s.joins
            && t.participants == s.participants && t.state.Some? && t.state.value.phase == B.Failed
  {
    assert (s.attempt, 0) in s.watchers && s.state.Some? by { InFlightIsWatched(s); }
    hide T.Inv;
    var t := B.Settled(s, 0, Some((message, details)));
    assert t.operations[0] in t.operations;
    hide B.Key, B.Pushed;
  }

  lemma InFlightIsWatched(s: B.State)
    requires T.Inv(s) && |s.operations| == 1 && B.InFlight(s.operations[0])
    ensures s.state.Some? && (s.attempt, 0) in s.watchers
  {
    hide T.LogOk, T.PagesOk, T.LivesOk, B.HasErrors;
    assert s.operations[0] in s.operations;
  }

  lemma Joined(w: Worker)
    requires Alone(w, 1, false, true, true)
    ensures Alone(Step(w, Other(B.AllSettled(1))), 1, false, false, false)
  {
    NobodyWatches(w.barrier);
    hide T.Inv, B.JointlySettled;
    T.JointKeeps(w.barrier, 1);
    StillFailed(w.barrier);
  }

  lemma NobodyWatches(s: B.State)
    requires T.Inv(s) && |s.operations| == 1 && !s.operations[0].pending
    ensures s.watchers == {}
  {
    hide T.LogOk, T.PagesOk, T.LivesOk, T.StateOk;
    assert forall x :: x in s.watchers ==> !B.InFlight(s.operations[x.1]);
  }

  lemma StillFailed(s: B.State)
    requires T.Inv(s) && |s.operations| == 1 && !s.operations[0].pending && !s.operations[0].done
    requires s.state.Some? && s.state.value.phase == B.Failed
    ensures var t := B.JointlySettled(s, 1);
            && t.operations == s.operations && t.participants == s.participants && t.windows == s.windows
            && t.attempt == s.attempt && t.joins == s.joins - {1}
            && t.state.Some? && t.state.value.phase == B.Failed
  {
    hide T.LogOk, T.PagesOk, T.LivesOk, T.WatchOk;
    assert B.HasErrors(s);
    hide T.Inv;
    assert B.HasErrors(s.(joins := s.joins - {1}));
    hide B.HasErrors;
  }

  lemma RetriedAlone(w: Worker, epoch: string, names: seq<string>)
    requires Alone(w, 1, false, false, false)
    ensures Alone(Step(w, Lock(epoch, names)), 2, true, true, false)
  {
    var s := w.barrier;
    T.RetryKeeps(s);
    T.RetryOperations(s);
    var t := B.Launch(B.NewAttempt(s), 0);
    T.NothingRejected(t, 0);
    assert t.windows == [] by { T.NoneWaits(t.windows); }
    T.NewAttemptWatches(s);
    T.LaunchKeeps(B.NewAttempt(s), 0);
    hide B.Launch, T.LivesOk, T.WatchOk, T.LogOk, T.PagesOk, T.StateOk;
  }

  lemma OpenedAlone(w: Worker)
    requires Alone(w, 2, true, true, false)
    ensures var t := Step(w, Other(B.Settle(0, None)));
            t.remembered.None? && t.barrier.state.None? && t.barrier.running == Some(2) && t.barrier.attempt == 2
  {
    var s := w.barrier;
    T.NothingRejected(s, 0);
    assert (s.attempt, 0) in s.watchers && s.running == Some(2);
    T.SingleOpens(s);
    hide T.Inv;
  }

  /** The stranding lock is reachable: the operation is rejected, its promise settles, a second lock
      retries it, it succeeds and opens the barrier. A third lock then comes upon the retry's promise. */
  lemma StrandingIsReachable(epoch: string, name: string, message: string, details: string, again: string,
    third: string, names: seq<string>)
    requires names != []
    ensures var w := Run([Lock(epoch, [name]), Other(B.Settle(0, Some((message, details)))), Other(B.AllSettled(1)),
                          Lock(again, [name]), Other(B.Settle(0, None))]);
            && w.remembered.None? && w.barrier.state.None? && B.Busy(w.barrier)
            && Strands(Locked(w, third, names), third, names) && !B.AllDone(Locked(w, third, names).barrier)
  {
    var e1, e2, e3 := Lock(epoch, [name]), Other(B.Settle(0, Some((message, details)))), Other(B.AllSettled(1));
    var e4, e5 := Lock(again, [name]), Other(B.Settle(0, None));
    FirstLock(epoch, name);
    Rejected(Step(Run([]), e1), message, details);
    Joined(Step(Step(Run([]), e1), e2));
    RetriedAlone(Step(Step(Step(Run([]), e1), e2), e3), again, [name]);
    OpenedAlone(Step(Step(Step(Step(Run([]), e1), e2), e3), e4));
    RunFive(e1, e2, e3, e4, e5);
    WorkerInv([e1, e2, e3, e4, e5]);
    hide Run, Step, Alone, T.Inv, B.Begun;
    T.BusyBeginKeeps(Run([e1, e2, e3, e4, e5]).barrier, third, names);
  }

  lemma RunFive(e1: Event, e2: Event, e3: Event, e4: Event, e5: Event)
    ensures Run([e1, e2, e3, e4, e5]) == Step(Step(Step(Step(Step(Run([]), e1), e2), e3), e4), e5)
  {
    RunOne([], e1);
    RunOne([e1], e2);
    RunOne([e1, e2], e3);
    RunOne([e1, e2, e3], e4);
    RunOne([e1, e2, e3, e4], e5);
    hide *;
    assert [] + [e1] == [e1] && [e1] + [e2] == [e1, e2] && [e1, e2] + [e3] == [e1, e2, e3];
    assert [e1, e2, e3] + [e4] == [e1, e2, e3, e4] && [e1, e2, e3, e4] + [e5] == [e1, e2, e3, e4, e5];
  }

  lemma RunOne(es: seq<Event>, e: Event)
    ensures Run(es + [e]) == Step(Run(es), e)
  {
    assert (es + [e])[..|es|] == es;
    hide Step;
  }
}
