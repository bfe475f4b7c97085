/** The failure log of the lock barrier, from the events alone. */
module LockBarrierLog {
  import opened Prelude
  import opened LockBarrier
  import T = LockBarrierTheorems

  // --------------------------------------------------------- what failed, in order

  /** The pages that are silent when the time is over, from `k` on. */
  function SilentPages(windows: seq<Window>, attempt: nat, k: nat): seq<Failure>
    requires k <= |windows|
    decreases |windows| - k
  {
    if k == |windows| then []
    else
      var rest := SilentPages(windows, attempt, k + 1);
      if windows[k].error.Some? then rest else [Failure(attempt, "page:" + windows[k].peer, PAGE_TIMEOUT)] + rest
  }

  /** The operations that are not done when the time is over, from `k` on. */
  function LateOperations(ops: seq<Operation>, attempt: nat, k: nat): seq<Failure>
    requires k <= |ops|
    decreases |ops| - k
  {
    if k == |ops| then []
    else
      var rest := LateOperations(ops, attempt, k + 1);
      if ops[k].done then rest else [Failure(attempt, ops[k].name, ops[k].name + OPERATION_TIMEOUT)] + rest
  }

  /** The failures that one event brings up: a rejected execution that the current attempt awaits, an
      error reported by a page that owes this attempt, a time-out. */
  ghost function Brings(s: State, e: Event): seq<Failure> {
    match e
    case Settle(i, Some(f)) =>
      if i < |s.operations| && s.operations[i].pending && !s.operations[i].done && (s.attempt, i) in s.watchers
      then [Failure(s.attempt, s.operations[i].name, f.1)] else []
    case Report(p, epoch, attempt, error) =>
      if error != "" && s.epoch == Some(epoch) && s.attempt == attempt && (exists w :: w in s.windows && w.peer == p)
      then [Failure(s.attempt, "page:" + p, error)] else []
    case Timeout =>
      if s.timer then SilentPages(s.windows, s.attempt, 0) + LateOperations(s.operations, s.attempt, 0) else []
    case _ => []
  }

  /** All failures since the latest begin, in order, as often as they happened. */
  ghost function Occurred(es: seq<Event>): seq<Failure> {
    if es == [] then []
    else
      var before, e := es[..|es| - 1], es[|es| - 1];
      if e.Begin? && Run(before).state.None? then [] else Occurred(before) + Brings(Run(before), e)
  }

  /** The log tells failures apart by attempt and by the text of source and details. */
  predicate Alike(f: Failure, g: Failure) {
    f.attempt == g.attempt && f.source + ":" + f.details == g.source + ":" + g.details
  }

  /** Each failure once, where it first happened. */
  function Unrepeated(fs: seq<Failure>): seq<Failure> {
    if fs == [] then []
    else
      var n := |fs| - 1;
      var r := Unrepeated(fs[..n]);
      if exists f :: f in r && Alike(f, fs[n]) then r else r + [fs[n]]
  }

  // ------------------------------------------------------------------ recording

  /** The log is in order and holds the failures of the list, each once. */
  ghost predicate Holds(s: State, fs: seq<Failure>) {
    T.LogOk(s.failures, s.reported, s.recorded) && s.recorded == Unrepeated(fs)
  }

  lemma RecordAppends(s: State, source: string, details: string, fs: seq<Failure>)
    requires Holds(s, fs)
    ensures Holds(Record(s, source, details), fs + [Failure(s.attempt, source, details)])
  {
    var f := Failure(s.attempt, source, details);
    T.RecordKeeps(s, source, details);
    assert (fs + [f])[..|fs|] == fs;
    assert Key(s.attempt, source, details) in s.reported <==> exists g :: g in s.recorded && Alike(g, f) by {
      forall g | g in s.recorded
        ensures Alike(g, f) <==> Key(g.attempt, g.source, g.details) == Key(s.attempt, source, details) { }
    }
    hide T.LogOk;
  }

  lemma {:induction false} PagesAppend(s: State, k: nat, fs: seq<Failure>)
    requires k <= |s.windows| && Holds(s, fs)
    ensures Holds(TimeoutPages(s, k), fs + SilentPages(s.windows, s.attempt, k))
    decreases |s.windows| - k
  {
    if k == |s.windows| { assert fs + [] == fs; }
    else if s.windows[k].error.Some? { PagesAppend(s, k + 1, fs); }
    else {
      var w := s.windows[k];
      var s1 := s.(windows := s.windows[k := Window(w.peer, Some(PAGE_TIMEOUT))]);
      var f := Failure(s.attempt, "page:" + w.peer, PAGE_TIMEOUT);
      RecordAppends(s1, "page:" + w.peer, PAGE_TIMEOUT, fs);
      var s2 := Record(s1, "page:" + w.peer, PAGE_TIMEOUT);
      assert s2.windows == s1.windows && s2.attempt == s.attempt;
      SameSilence(s.windows, s1.windows, s.attempt, k + 1);
      hide Record, Holds;
      PagesAppend(s2, k + 1, fs + [f]);
      assert fs + [f] + SilentPages(s.windows, s.attempt, k + 1) == fs
        + ([f] + SilentPages(s.windows, s.attempt, k + 1));
    }
  }

  lemma {:induction false} SameSilence(a: seq<Window>, b: seq<Window>, attempt: nat, k: nat)
    requires |a| == |b| && k <= |a| && forall j :: k <= j < |a| ==> a[j] == b[j]
    ensures SilentPages(a, attempt, k) == SilentPages(b, attempt, k)
    decreases |a| - k
  {
    if k < |a| { SameSilence(a, b, attempt, k + 1); }
  }

  lemma {:induction false} OperationsAppend(s: State, k: nat, fs: seq<Failure>)
    requires k <= |s.operations| && Holds(s, fs)
    ensures Holds(TimeoutOperations(s, k), fs + LateOperations(s.operations, s.attempt, k))
    decreases |s.operations| - k
  {
    if k == |s.operations| { assert fs + [] == fs; }
    else if s.operations[k].done { OperationsAppend(s, k + 1, fs); }
    else {
      var op := s.operations[k];
      var text := op.name + OPERATION_TIMEOUT;
      var s1 := s.(operations := s.operations[k := op.(error := Some(text))]);
      var f := Failure(s.attempt, op.name, text);
      RecordAppends(s1, op.name, text, fs);
      var s2 := Record(s1, op.name, text);
      assert s2.operations == s1.operations && s2.attempt == s.attempt;
      SameLate(s.operations, s1.operations, s.attempt, k + 1);
      hide Record, Holds;
      OperationsAppend(s2, k + 1, fs + [f]);
      assert fs + [f] + LateOperations(s.operations, s.attempt, k + 1) == fs
        + ([f] + LateOperations(s.operations, s.attempt, k + 1));
    }
  }

  lemma {:induction false} SameLate(a: seq<Operation>, b: seq<Operation>, attempt: nat, k: nat)
    requires |a| == |b| && k <= |a| && forall j :: k <= j < |a| ==> a[j] == b[j]
    ensures LateOperations(a, attempt, k) == LateOperations(b, attempt, k)
    decreases |a| - k
  {
    if k < |a| { SameLate(a, b, attempt, k + 1); }
  }

  lemma TimeoutBrings(s: State, fs: seq<Failure>)
    requires T.Inv(s) && s.timer && Holds(s, fs)
    ensures Holds(TimedOut(s), fs + Brings(s, Timeout))
  {
    hide T.Inv, Unrepeated, TimeoutPages, TimeoutOperations, Commit, SilentPages, LateOperations;
    var s0 := s.(timer := false);
    T.TimeoutPagesEffect(s0, 0);
    hide T.LogOk;
    PagesAppend(s0, 0, fs);
    var s1 := TimeoutPages(s0, 0);
    OperationsAppend(s1, 0, fs + SilentPages(s.windows, s.attempt, 0));
    CommitHolds(TimeoutOperations(s1, 0),
      fs + SilentPages(s.windows, s.attempt, 0) + LateOperations(s.operations, s.attempt, 0));
    assert fs + SilentPages(s.windows, s.attempt, 0) + LateOperations(s.operations, s.attempt, 0)
        == fs + (SilentPages(s.windows, s.attempt, 0) + LateOperations(s.operations, s.attempt, 0));
    hide Holds;
  }

  lemma CommitHolds(s: State, fs: seq<Failure>)
    requires Holds(s, fs)
    ensures Holds(Commit(s), fs)
  { hide HasErrors, AllDone, T.LogOk, Unrepeated; }

  // ------------------------------------------------------------------ every event

  /** The log and what it remembers are as they were. */
  predicate SameLog(s: State, t: State) {
    t.failures == s.failures && t.reported == s.reported && t.recorded == s.recorded
  }

  lemma CommitSameLog(s: State)
    ensures SameLog(s, Commit(s))
  { hide HasErrors, AllDone; }

  lemma RegisterSameLog(s: State, p: string)
    ensures SameLog(s, Registered(s, p))
  {
    var s1 := if p in s.participants then s else s.(participants := s.participants + [p]);
    CommitSameLog(s1.(windows := s.windows + [Window(p, None)]));
    hide Commit, Has;
  }

  lemma RemoveSameLog(s: State, p: string)
    ensures SameLog(s, Removed(s, p))
  {
    CommitSameLog(s.(participants := Dropped(s.participants, p), windows := Without(s.windows, p)));
    hide Commit, Dropped, Without;
  }

  lemma RetrySameLog(s: State)
    requires T.Inv(s)
    ensures SameLog(s, Retried(s))
  {
    if !Busy(s) {
      T.NewAttemptWatches(s);
      T.LaunchKeeps(NewAttempt(s), 0);
    }
    hide T.LivesOk, T.WatchOk, T.LogOk, T.PagesOk, T.StateOk, Launch;
  }

  lemma BeginEmptiesLog(s: State, epoch: string, labels: seq<string>)
    requires T.Inv(s) && s.state.None?
    ensures Holds(Begun(s, epoch, labels), [])
  {
    if Busy(s) { T.BusyBeginKeeps(s, epoch, labels); }
    else {
      T.BeginKeeps(s, epoch, labels);
      BegunSameLog(s, epoch, labels);
    }
    hide Begun, T.LivesOk, T.WatchOk, T.PagesOk, T.StateOk;
  }

  lemma BegunSameLog(s: State, epoch: string, labels: seq<string>)
    requires T.Inv(s) && s.state.None? && !Busy(s)
    ensures Begun(s, epoch, labels).recorded == []
  {
    var s0 := s.(failures := [], reported := {}, recorded := [], epoch := Some(epoch), operations := Fresh(labels),
      history := []);
    T.NothingInFlight(s);
    assert s.watchers == {};
    assert T.LivesOk(s0.operations, s0.history);
    T.NewAttemptWatches(s0);
    T.LaunchKeeps(NewAttempt(s0), 0);
    hide T.LivesOk, T.LogOk, T.PagesOk, T.StateOk, Launch;
  }

  lemma ReportBrings(s: State, p: string, epoch: string, attempt: nat, error: string, fs: seq<Failure>)
    requires Holds(s, fs)
    ensures Holds(Reported(s, p, epoch, attempt, error), fs + Brings(s, Report(p, epoch, attempt, error)))
  {
    hide T.LogOk, Unrepeated, Commit, Record, Marked, Without, Holds;
    assert fs + [] == fs;
    if s.epoch == Some(epoch) && attempt == s.attempt && Has(s.windows, p) {
      if error != "" {
        var s1 := s.(windows := Marked(s.windows, p, error));
        SameLogHolds(s, s1, fs);
        RecordAppends(s1, "page:" + p, error, fs);
        CommitHolds(Record(s1, "page:" + p, error), fs + [Failure(s.attempt, "page:" + p, error)]);
      } else {
        SameLogHolds(s, s.(windows := Without(s.windows, p)), fs);
        CommitHolds(s.(windows := Without(s.windows, p)), fs);
      }
    }
  }

  lemma SettleBrings(s: State, i: nat, failure: Option<(string, string)>, fs: seq<Failure>)
    requires Holds(s, fs) && i < |s.operations| && InFlight(s.operations[i])
    ensures Holds(Settled(s, i, failure), fs + Brings(s, Settle(i, failure)))
  {
    hide T.LogOk, Unrepeated, Commit, Record, Holds;
    assert fs + [] == fs;
    var op := s.operations[i];
    var rest := set w | w in s.watchers && w.1 != i;
    match failure {
      case None =>
        var s1 := s.(operations := s.operations[i := op.(done := true, error := None)], watchers := rest,
                     history := s.history + [Succeeded(i)]);
        SameLogHolds(s, s1, fs);
        CommitHolds(s1, fs);
      case Some(f) =>
        var s1 := s.(operations := s.operations[i := op.(pending := false, error := Some(op.name + ": " + f.0))],
                     watchers := rest, history := s.history + [Rejected(i)]);
        SameLogHolds(s, s1, fs);
        RecordAppends(s1, op.name, f.1, fs);
        CommitHolds(Record(s1, op.name, f.1), fs + [Failure(s.attempt, op.name, f.1)]);
    }
  }

  lemma SameLogHolds(s: State, t: State, fs: seq<Failure>)
    requires Holds(s, fs) && SameLog(s, t)
    ensures Holds(t, fs + [])
  {
    assert fs + [] == fs;
    hide T.LogOk, Unrepeated;
  }

  lemma StepBrings(s: State, e: Event, fs: seq<Failure>)
    requires T.Inv(s) && Holds(s, fs)
    ensures Holds(Step(s, e), if e.Begin? && s.state.None? then [] else fs + Brings(s, e))
  {
    hide T.Inv, Holds, T.LogOk;
    if !Enabled(s, e) { SameLogHolds(s, s, fs); }
    else {
      match e
      case Register(p) => RegisterSameLog(s, p); SameLogHolds(s, Registered(s, p), fs);
      case Remove(p) => RemoveSameLog(s, p); SameLogHolds(s, Removed(s, p), fs);
      case Begin(epoch, labels) => BeginEmptiesLog(s, epoch, labels);
      case Retry => RetrySameLog(s); SameLogHolds(s, Retried(s), fs);
      case Report(p, epoch, attempt, error) => ReportBrings(s, p, epoch, attempt, error, fs);
      case Timeout => TimeoutBrings(s, fs);
      case Settle(i, failure) => SettleBrings(s, i, failure, fs);
      case AllSettled(n) => CommitSameLog(s.(joins := s.joins - {n})); SameLogHolds(s, JointlySettled(s, n), fs);
    }
    hide Registered, Removed, Begun, Retried, Reported, TimedOut, Settled, Commit, SilentPages, LateOperations;
  }

  lemma {:induction false} LogHolds(es: seq<Event>)
    ensures Holds(Run(es), Occurred(es))
  {
    if es != [] {
      var before := es[..|es| - 1];
      LogHolds(before);
      T.RunKeepsInv(before);
      StepBrings(Run(before), es[|es| - 1], Occurred(before));
    }
    hide Step, Brings, T.Inv;
  }

  /** In every run the log, and what the snapshot shows of it, is the first and the latest three of the
      failures that occurred since the latest begin, each counted once. */
  lemma LogFollowsEvents(es: seq<Event>)
    ensures Run(es).failures == T.Digest(Unrepeated(Occurred(es)))
    ensures Run(es).state.Some? ==> Run(es).state.value.diagnostics == T.Digest(Unrepeated(Occurred(es)))
  {
    LogHolds(es);
    T.RunKeepsInv(es);
    hide Run, Occurred, Unrepeated, T.Digest, T.WatchOk, T.LivesOk, T.PagesOk;
  }

  /** Nothing that occurred is missing, nothing is listed twice, and nothing else is listed. */
  lemma UnrepeatedMeans(fs: seq<Failure>)
    ensures forall f :: f in Unrepeated(fs) ==> f in fs
    ensures forall f :: f in fs ==> Listed(Unrepeated(fs), f)
    ensures forall j, k :: 0 <= j < k < |Unrepeated(fs)| ==> !Alike(Unrepeated(fs)[j], Unrepeated(fs)[k])
  {
    UnrepeatedAdds(fs);
    UnrepeatedOnce(fs);
    forall f | f in fs ensures Listed(Unrepeated(fs), f) { UnrepeatedKeeps(fs, f); }
  }

  predicate Listed(fs: seq<Failure>, f: Failure) { exists g :: g in fs && Alike(g, f) }

  lemma {:induction false} UnrepeatedAdds(fs: seq<Failure>)
    ensures forall f :: f in Unrepeated(fs) ==> f in fs
  {
    if fs != [] {
      var n := |fs| - 1;
      UnrepeatedAdds(fs[..n]);
      hide Alike;
      assert fs == fs[..n] + [fs[n]];
    }
  }

  lemma {:induction false} UnrepeatedOnce(fs: seq<Failure>)
    ensures forall j, k :: 0 <= j < k < |Unrepeated(fs)| ==> !Alike(Unrepeated(fs)[j], Unrepeated(fs)[k])
  {
    if fs != [] { UnrepeatedOnce(fs[..|fs| - 1]); }
    hide Alike;
  }

  lemma {:induction false} UnrepeatedKeeps(fs: seq<Failure>, f: Failure)
    requires f in fs
    ensures Listed(Unrepeated(fs), f)
  {
    var n := |fs| - 1;
    assert Alike(f, f);
    hide Alike;
    var r := Unrepeated(fs[..n]);
    assert fs == fs[..n] + [fs[n]];
    if f in fs[..n] {
      UnrepeatedKeeps(fs[..n], f);
      var g :| g in r && Alike(g, f);
      assert g in Unrepeated(fs);
    } else {
      assert f == fs[n];
      if !exists g :: g in r && Alike(g, f) { assert f in Unrepeated(fs); }
    }
  }

  // ------------------------------------------------------- what a settled execution decides

  /** The operation has succeeded since the latest begin. */
  ghost predicate SucceededBy(es: seq<Event>, i: nat) {
    if es == [] then false
    else
      var before, e := es[..|es| - 1], es[|es| - 1];
      if e.Begin? && Run(before).state.None? then false
      else
        || SucceededBy(before, i)
        || (e == Settle(i, None) && i < |Run(before).operations| && InFlight(Run(before).operations[i]))
  }

  /** An operation is done exactly if it has succeeded since the latest begin. */
  lemma {:induction false} DoneIffSucceeded(es: seq<Event>, i: nat)
    requires i < |Run(es).operations|
    ensures Run(es).operations[i].done <==> SucceededBy(es, i)
  {
    if es != [] {
      var before, e := es[..|es| - 1], es[|es| - 1];
      T.RunKeepsInv(before);
      StepDoes(Run(before), e, i);
      if !(e.Begin? && Run(before).state.None?) { DoneIffSucceeded(before, i); }
    }
    hide Step, T.Inv;
  }

  /** What a step makes of one operation: a settled execution alone decides, success for good and a
      rejection against it; a begin brings new ones. */
  lemma StepDoes(s: State, e: Event, i: nat)
    requires T.Inv(s) && i < |Step(s, e).operations|
    ensures var op := Step(s, e).operations[i];
            if e.Begin? && s.state.None? then i < |e.labels| && op.name == e.labels[i] && !op.done
            else
              && i < |s.operations| && op.name == s.operations[i].name
              && (op.done <==> s.operations[i].done || (e == Settle(i, None) && InFlight(s.operations[i])))
              && (e.Settle? && e.operation == i && e.failure.Some? && InFlight(s.operations[i]) ==>
                   !op.pending && op.error == Some(op.name + ": " + e.failure.value.0))
  {
    hide T.Inv, HasErrors, AllDone, Begun, Retried, TimedOut, Settled, Registered, Removed, Reported, Commit;
    if Enabled(s, e) {
      match e
      case Begin(epoch, labels) => BeginDoes(s, epoch, labels, i);
      case Retry => RetryDoes(s, i);
      case Timeout => TimeoutDoes(s, i);
      case Register(p) => RegisterDoes(s, p);
      case Remove(p) => RemoveDoes(s, p);
      case Report(p, epoch, attempt, error) => ReportDoes(s, p, epoch, attempt, error);
      case Settle(k, failure) => SettleDoes(s, k, failure);
      case AllSettled(n) => CommitDoes(s.(joins := s.joins - {n}));
    }
  }

  lemma RegisterDoes(s: State, p: string)
    ensures Registered(s, p).operations == s.operations
  {
    var s1 := if p in s.participants then s else s.(participants := s.participants + [p]);
    CommitDoes(s1.(windows := s.windows + [Window(p, None)]));
    hide Commit, Has;
  }

  lemma RemoveDoes(s: State, p: string)
    ensures Removed(s, p).operations == s.operations
  {
    CommitDoes(s.(participants := Dropped(s.participants, p), windows := Without(s.windows, p)));
    hide Commit, Dropped, Without;
  }

  lemma ReportDoes(s: State, p: string, epoch: string, attempt: nat, error: string)
    ensures Reported(s, p, epoch, attempt, error).operations == s.operations
  {
    CommitDoes(Record(s.(windows := Marked(s.windows, p, error)), "page:" + p, error));
    CommitDoes(s.(windows := Without(s.windows, p)));
    hide Commit, Has, Marked, Without;
  }

  lemma SettleDoes(s: State, k: nat, failure: Option<(string, string)>)
    requires k < |s.operations| && InFlight(s.operations[k])
    ensures var op := s.operations[k];
            Settled(s, k, failure).operations == s.operations[k :=
              if failure.None? then op.(done := true, error := None)
              else op.(pending := false, error := Some(op.name + ": " + failure.value.0))]
  {
    hide HasErrors, AllDone;
  }

  lemma CommitDoes(s: State)
    ensures Commit(s).operations == s.operations
  { hide HasErrors, AllDone; }

  lemma TimeoutDoes(s: State, i: nat)
    requires T.Inv(s) && s.timer
    ensures |TimedOut(s).operations| == |s.operations|
    ensures i < |s.operations| ==>
              var op := TimedOut(s).operations[i];
              op.name == s.operations[i].name && op.done == s.operations[i].done
  {
    var s0 := s.(timer := false);
    T.TimeoutPagesEffect(s0, 0);
    T.TimeoutOperationsEffect(TimeoutPages(s0, 0), 0);
    CommitDoes(TimeoutOperations(TimeoutPages(s0, 0), 0));
    hide T.LogOk, T.PagesOk, T.LivesOk, T.WatchOk, T.StateOk, Commit, TimeoutPages, TimeoutOperations;
  }

  lemma RetryDoes(s: State, i: nat)
    requires T.Inv(s)
    ensures |Retried(s).operations| == |s.operations|
    ensures i < |s.operations| ==>
              var op := Retried(s).operations[i];
              op.name == s.operations[i].name && op.done == s.operations[i].done
  {
    if !Busy(s) {
      T.NewAttemptWatches(s);
      T.LaunchKeeps(NewAttempt(s), 0);
      var n, t := NewAttempt(s), Launch(NewAttempt(s), 0);
      if i < |s.operations| { assert t.operations[i].(pending := n.operations[i].pending) == n.operations[i]; }
    }
    hide T.LivesOk, T.WatchOk, T.LogOk, T.PagesOk, T.StateOk, Launch;
  }

  lemma BeginDoes(s: State, epoch: string, labels: seq<string>, i: nat)
    requires T.Inv(s) && s.state.None?
    ensures |Begun(s, epoch, labels).operations| == |labels|
    ensures i < |labels| ==> var op := Begun(s, epoch, labels).operations[i]; op.name == labels[i] && !op.done
  {
    var s0 := s.(failures := [], reported := {}, recorded := [], epoch := Some(epoch), operations := Fresh(labels),
      history := []);
    T.NothingInFlight(s);
    if Busy(s) { T.BusyBeginKeeps(s, epoch, labels); }
    else {
      assert s.watchers == {};
      assert T.LivesOk(s0.operations, s0.history);
      T.NewAttemptWatches(s0);
      T.LaunchKeeps(NewAttempt(s0), 0);
      var n, t := NewAttempt(s0), Launch(NewAttempt(s0), 0);
      if i < |labels| { assert t.operations[i].(pending := n.operations[i].pending) == n.operations[i]; }
    }
    hide T.LivesOk, T.LogOk, T.PagesOk, T.StateOk, Launch;
  }
}
