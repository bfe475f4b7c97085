/** What the lock barrier keeps over every run, and when it opens. */
module LockBarrierTheorems {
  import opened Prelude
  import opened LockBarrier

  // --------------------------------------------------- reference definitions

  /** The pages taking part: the last word is a registration. */
  predicate Member(es: seq<Event>, p: string) {
    if es == [] then false
    else match es[|es| - 1]
      case Register(q) => q == p || Member(es[..|es| - 1], p)
      case Remove(q) => q != p && Member(es[..|es| - 1], p)
      case _ => Member(es[..|es| - 1], p)
  }

  /** The pages that still owe a report to the current attempt. */
  ghost predicate Owes(es: seq<Event>, p: string) {
    if es == [] then false
    else
      var before := es[..|es| - 1];
      if Run(es).attempt != Run(before).attempt then Member(before, p)
      else match es[|es| - 1]
        case Register(q) => q == p || Owes(before, p)
        case Remove(q) => q != p && Owes(before, p)
        case Report(q, epoch, attempt, error) =>
          !(q == p && error == "" && Run(es).epoch == Some(epoch) && Run(es).attempt == attempt) && Owes(before, p)
        case _ => Owes(before, p)
  }

  /** One operation seen from its executions; `Broken` is a start that overlaps another execution
      or follows success, or an end without a start. */
  datatype Life = Idle | Running | Finished | Broken

  function Lived(l: Life, h: Happening): Life {
    match h
    case Launched(_) => if l == Idle then Running else Broken
    case Succeeded(_) => if l == Running then Finished else Broken
    case Rejected(_) => if l == Running then Idle else Broken
  }

  function LifeOf(history: seq<Happening>, i: nat): Life {
    if history == [] then Idle
    else
      var l := LifeOf(history[..|history| - 1], i);
      var h := history[|history| - 1];
      if h.operation == i then Lived(l, h) else l
  }

  /** The first failure and the latest three. */
  function Digest(recorded: seq<Failure>): seq<Failure> {
    if |recorded| <= 4 then recorded else [recorded[0]] + recorded[|recorded| - 3..]
  }

  // --------------------------------------------------------------- invariant

  predicate PagesOk(windows: seq<Window>, participants: seq<string>) {
    && Distinct(windows)
    && Unique(participants)
    && (forall w :: w in windows ==> w.peer in participants)
  }

  predicate OperationOk(op: Operation) { op.done ==> op.pending && op.error.None? }

  predicate LivesOk(ops: seq<Operation>, history: seq<Happening>) {
    && (forall op :: op in ops ==> OperationOk(op))
    && (forall i: nat :: i < |ops| ==>
         LifeOf(history, i) == if ops[i].done then Finished else if ops[i].pending then Running else Idle)
  }

  /** Continuations await executions in flight, for attempts not yet settled; the current attempt
      awaits every unfinished operation before `k` that was not rejected. */
  predicate WatchOk(ops: seq<Operation>, watchers: set<(nat, nat)>, joins: set<nat>, attempt: nat, k: nat) {
    && (forall n :: n in joins ==> n <= attempt)
    && (forall w :: w in watchers ==> w.0 in joins && w.1 < |ops| && InFlight(ops[w.1]))
    && (forall i: nat :: i < k && i < |ops| && !ops[i].done ==>
      if ops[i].pending then (attempt, i) in watchers else ops[i].error.Some?)
  }

  predicate LogOk(failures: seq<Failure>, reported: set<(nat, string)>, recorded: seq<Failure>) {
    && failures == Digest(recorded)
    && reported == (set f | f in recorded :: Key(f.attempt, f.source, f.details))
    && (forall j, k :: 0 <= j < k < |recorded| ==>
         Key(recorded[j].attempt, recorded[j].source, recorded[j].details) != Key(recorded[k].attempt,
           recorded[k].source, recorded[k].details))
  }

  /** Operations that were handed over and never started. */
  predicate Untouched(ops: seq<Operation>) {
    forall op :: op in ops ==> !op.pending && !op.done && op.error.None?
  }

  /** An open barrier waits for nothing: everything is done, or nothing was ever started. */
  predicate OpenOk(s: State) {
    s.windows == [] && !s.timer && (AllDone(s) || Untouched(s.operations))
  }

  function Watched(s: State): nat { if s.state.Some? then |s.operations| else 0 }

  /** The published snapshot tells the truth. */
  predicate StateOk(s: State) {
    match s.state
    case None => OpenOk(s)
    case Some(snap) =>
      && snap == Snapshot(if HasErrors(s) then Failed else Pending, s.attempt, s.failures)
      && (AllDone(s) && s.windows == [] ==> s.attempt in s.joins)
  }

  predicate Inv(s: State) {
    && PagesOk(s.windows, s.participants)
    && LivesOk(s.operations, s.history)
    && WatchOk(s.operations, s.watchers, s.joins, s.attempt, Watched(s))
    && LogOk(s.failures, s.reported, s.recorded)
    && StateOk(s)
    && s.running == (if s.attempt in s.joins then Some(s.attempt) else None)
  }

  /** The invariant before `Commit`, which re-establishes the snapshot. */
  predicate InvBut(s: State) {
    && PagesOk(s.windows, s.participants)
    && LivesOk(s.operations, s.history)
    && WatchOk(s.operations, s.watchers, s.joins, s.attempt, Watched(s))
    && LogOk(s.failures, s.reported, s.recorded)
    && s.running == (if s.attempt in s.joins then Some(s.attempt) else None)
    && (s.state.None? ==> OpenOk(s))
  }

  lemma CommitKeeps(s: State)
    requires InvBut(s)
    ensures Inv(Commit(s))
    ensures Commit(s).state.Some? ==> s.state.Some? && (HasErrors(s) || !AllDone(s) || s.windows != [])
    ensures Commit(s) == s.(state := Commit(s).state, timer := Commit(s).timer)
  {
    DoneMeansNoErrors(s);
    hide PagesOk, LivesOk, WatchOk, LogOk;
    assert HasErrors(Commit(s)) == HasErrors(s);
  }

  lemma DoneMeansNoErrors(s: State)
    requires LivesOk(s.operations, s.history)
    ensures AllDone(s) && s.windows == [] ==> !HasErrors(s)
  {
    assert forall op :: op in s.operations ==> OperationOk(op);
  }

  lemma DigestPushed(recorded: seq<Failure>, f: Failure)
    ensures Pushed(Digest(recorded), f) == Digest(recorded + [f])
  {
    var log := Digest(recorded);
    if |recorded| >= 4 {
      assert log + [f] == [recorded[0]] + recorded[|recorded| - 3..] + [f];
    }
  }

  lemma RecordKeeps(s: State, source: string, details: string)
    requires LogOk(s.failures, s.reported, s.recorded)
    ensures var t := Record(s, source, details); LogOk(t.failures, t.reported, t.recorded)
  {
    DigestPushed(s.recorded, Failure(s.attempt, source, details));
  }

  // ------------------------------------------------------- pages and timeouts

  lemma RegisterKeeps(s: State, p: string)
    requires Inv(s)
    ensures Inv(Registered(s, p))
    ensures forall q :: Has(Registered(s, p).windows, q) <==> Has(s.windows, q) || (q == p && s.state.Some?)
    ensures var t := Registered(s, p);
            && (forall q :: q in t.participants <==> q == p || q in s.participants)
            && t.attempt == s.attempt && t.epoch == s.epoch
            && (s.state.None? ==> t.state.None?) && OpensDone(s, t)
  {
    var s1 := if p in s.participants then s else s.(participants := s.participants + [p]);
    if s.state.Some? && !Has(s.windows, p) {
      var s2 := s1.(windows := s.windows + [Window(p, None)]);
      assert PagesOk(s2.windows, s2.participants);
      assert Window(p, None) in s2.windows;
      CommitKeeps(s2);
      assert !AllDone(s2) || s2.windows != [];
    } else {
      hide WatchOk, LivesOk, LogOk;
      assert HasErrors(s1) == HasErrors(s);
    }
  }

  lemma RemoveKeeps(s: State, p: string)
    requires Inv(s)
    ensures Inv(Removed(s, p))
    ensures forall q :: Has(Removed(s, p).windows, q) <==> q != p && Has(s.windows, q)
  {
    var s1 := s.(participants := Dropped(s.participants, p), windows := Without(s.windows, p));
    assert PagesOk(s1.windows, s1.participants);
    CommitKeeps(s1);
  }


  lemma SamePeers(windows: seq<Window>, other: seq<Window>, ps: seq<string>)
    requires |windows| == |other| && forall k :: 0 <= k < |windows| ==> windows[k].peer == other[k].peer
    ensures forall q :: Has(windows, q) <==> Has(other, q)
    ensures PagesOk(windows, ps) ==> PagesOk(other, ps)
  {
    forall q ensures Has(windows, q) ==> Has(other, q) { FoundIn(windows, other, q); }
    forall q ensures Has(other, q) ==> Has(windows, q) { FoundIn(other, windows, q); }
    if PagesOk(windows, ps) {
      forall w | w in other ensures w.peer in ps {
        var k :| 0 <= k < |other| && other[k] == w;
        assert windows[k] in windows;
      }
    }
  }

  lemma FoundIn(windows: seq<Window>, other: seq<Window>, q: string)
    requires |windows| == |other| && forall k :: 0 <= k < |windows| ==> windows[k].peer == other[k].peer
    ensures Has(windows, q) ==> Has(other, q)
  {
    if Has(windows, q) {
      var w :| w in windows && w.peer == q;
      var k :| 0 <= k < |windows| && windows[k] == w;
      assert other[k] in other && other[k].peer == q;
    }
  }

  lemma ReportKeeps(s: State, p: string, epoch: string, attempt: nat, error: string)
    requires Inv(s)
    ensures var t := Reported(s, p, epoch, attempt, error);
            && Inv(t)
            && forall q :: Has(t.windows, q) <==>
                 Has(s.windows, q) && !(q == p && error == "" && s.epoch == Some(epoch) && s.attempt == attempt)
    ensures var t := Reported(s, p, epoch, attempt, error);
            && t.participants == s.participants && t.attempt == s.attempt && t.epoch == s.epoch
            && (s.state.None? ==> t.state.None?) && OpensDone(s, t)
  {
    if s.epoch == Some(epoch) && attempt == s.attempt && Has(s.windows, p) {
      if error != "" {
        var s1 := s.(windows := Marked(s.windows, p, error));
        SamePeers(s.windows, s1.windows, s.participants);
        RecordKeeps(s1, "page:" + p, error);
        var s2 := Record(s1, "page:" + p, error);
        assert PagesOk(s2.windows, s2.participants);
        CommitKeeps(s2);
      } else {
        var s1 := s.(windows := Without(s.windows, p));
        CommitKeeps(s1);
      }
    }
  }

  lemma {:induction false} TimeoutPagesEffect(s: State, k: nat)
    requires k <= |s.windows| && LogOk(s.failures, s.reported, s.recorded)
    ensures var t := TimeoutPages(s, k);
            && t == s.(windows := t.windows, failures := t.failures, reported := t.reported, recorded := t.recorded)
            && |t.windows| == |s.windows|
            && (forall j :: 0 <= j < |s.windows| ==>
              t.windows[j].peer == s.windows[j].peer && (k <= j ==> t.windows[j].error.Some?))
            && (forall j :: 0 <= j < k ==> t.windows[j] == s.windows[j])
            && LogOk(t.failures, t.reported, t.recorded)
    decreases |s.windows| - k
  {
    if k < |s.windows| {
      var w := s.windows[k];
      if w.error.Some? { TimeoutPagesEffect(s, k + 1); }
      else {
        var s1 := s.(windows := s.windows[k := Window(w.peer, Some(PAGE_TIMEOUT))]);
        RecordKeeps(s1, "page:" + w.peer, PAGE_TIMEOUT);
        hide LogOk;
        TimeoutPagesEffect(Record(s1, "page:" + w.peer, PAGE_TIMEOUT), k + 1);
      }
    }
  }

  predicate OnlyError(op: Operation, op1: Operation) {
    op1.name == op.name && op1.pending == op.pending && op1.done == op.done
  }

  lemma {:induction false} TimeoutOperationsEffect(s: State, k: nat)
    requires k <= |s.operations| && LogOk(s.failures, s.reported, s.recorded)
    ensures var t := TimeoutOperations(s, k);
            && t == s.(operations := t.operations, failures := t.failures, reported := t.reported,
              recorded := t.recorded)
            && |t.operations| == |s.operations|
            && (forall j :: 0 <= j < |s.operations| ==> OnlyError(s.operations[j], t.operations[j]))
            && (forall j :: 0 <= j < |s.operations| && (s.operations[j].done || j < k) ==>
              t.operations[j] == s.operations[j])
            && (forall j :: k <= j < |s.operations| && !s.operations[j].done ==> t.operations[j].error.Some?)
            && LogOk(t.failures, t.reported, t.recorded)
    decreases |s.operations| - k
  {
    if k < |s.operations| {
      var op := s.operations[k];
      if op.done { TimeoutOperationsEffect(s, k + 1); }
      else {
        var text := op.name + OPERATION_TIMEOUT;
        var s1 := s.(operations := s.operations[k := op.(error := Some(text))]);
        RecordKeeps(s1, op.name, text);
        var s2 := Record(s1, op.name, text);
        assert s2 == s1.(failures := s2.failures, reported := s2.reported, recorded := s2.recorded);
        hide LogOk, Record;
        TimeoutOperationsEffect(s2, k + 1);
      }
    }
  }

  lemma TimeoutKeeps(s: State)
    requires Inv(s) && s.timer
    ensures var t := TimedOut(s);
            && Inv(t)
            && (forall q :: Has(t.windows, q) <==> Has(s.windows, q))
            && (t.state.None? <==> s.windows == [] && AllDone(s))
            && (t.state.Some? ==> t.state.value.phase == Failed)
            && t.history == s.history && t.watchers == s.watchers && t.attempt == s.attempt
            && t.participants == s.participants && t.epoch == s.epoch
  {
    var s0 := s.(timer := false);
    TimeoutPagesEffect(s0, 0);
    var s1 := TimeoutPages(s0, 0);
    TimeoutOperationsEffect(s1, 0);
    var s2 := TimeoutOperations(s1, 0);
    SamePeers(s.windows, s1.windows, s.participants);
    TimeoutOperationsLives(s1, s2);
    assert InvBut(s2);
    CommitKeeps(s2);
  }

  lemma TimeoutOperationsLives(s: State, t: State)
    requires LivesOk(s.operations, s.history) && WatchOk(s.operations, s.watchers, s.joins, s.attempt, |s.operations|)
    requires |t.operations| == |s.operations|
    requires forall j :: 0 <= j < |s.operations| ==> OnlyError(s.operations[j], t.operations[j])
    requires forall j :: 0 <= j < |s.operations| && s.operations[j].done ==> t.operations[j] == s.operations[j]
    requires forall j :: 0 <= j < |s.operations| && !s.operations[j].done ==> t.operations[j].error.Some?
    ensures LivesOk(t.operations, s.history) && WatchOk(t.operations, s.watchers, s.joins, s.attempt, |t.operations|)
  {
    forall op | op in t.operations ensures OperationOk(op) {
      var k :| 0 <= k < |t.operations| && t.operations[k] == op;
      assert OperationOk(s.operations[k]);
    }
    forall j | 0 <= j < |s.operations| 
      ensures t.operations[j].pending == s.operations[j].pending && t.operations[j].done == s.operations[j].done {
      assert OnlyError(s.operations[j], t.operations[j]);
    }
  }

  // --------------------------------------------------------------- executions

  lemma LifeAppend(history: seq<Happening>, h: Happening)
    ensures forall i: nat ::
              var l := LifeOf(history, i);
              LifeOf(history + [h], i) == if h.operation == i then Lived(l, h) else l
  {
    assert (history + [h])[..|history|] == history;
  }

  lemma UpdateLives(ops: seq<Operation>, history: seq<Happening>, i: nat, op: Operation, h: Happening)
    requires LivesOk(ops, history) && i < |ops| && OperationOk(op) && h.operation == i
    requires LifeOf(history + [h], i) == if op.done then Finished else if op.pending then Running else Idle
    ensures LivesOk(ops[i := op], history + [h])
  {
    LifeAppend(history, h);
    var ops1 := ops[i := op];
    forall o | o in ops1 ensures OperationOk(o) {
      var k :| 0 <= k < |ops1| && ops1[k] == o;
    }
  }

  /** Pages, attempt and epoch stay, and the barrier does not close. */
  predicate Same(s: State, t: State) {
    && t.windows == s.windows && t.participants == s.participants && t.attempt == s.attempt && t.epoch == s.epoch
    && (s.state.None? ==> t.state.None?) && OpensDone(s, t)
  }

  lemma SettleKeeps(s: State, i: nat, failure: Option<(string, string)>)
    requires Inv(s) && i < |s.operations| && InFlight(s.operations[i])
    ensures Inv(Settled(s, i, failure))
    ensures Same(s, Settled(s, i, failure))
  {
    if failure.None? { SucceedKeeps(s, i); } else { RejectKeeps(s, i, failure.value); }
  }

  lemma SucceedKeeps(s: State, i: nat)
    requires Inv(s) && i < |s.operations| && InFlight(s.operations[i])
    ensures Inv(Settled(s, i, None)) && Same(s, Settled(s, i, None))
  {
    var op := s.operations[i].(done := true, error := None);
    LifeAppend(s.history, Succeeded(i));
    UpdateLives(s.operations, s.history, i, op, Succeeded(i));
    var s1 := s.(operations := s.operations[i := op], watchers := (set w | w in s.watchers && w.1 != i),
      history := s.history + [Succeeded(i)]);
    hide LivesOk, LogOk, PagesOk;
    assert WatchOk(s1.operations, s1.watchers, s1.joins, s1.attempt, |s1.operations|);
    CommitKeeps(s1);
  }

  lemma RejectKeeps(s: State, i: nat, f: (string, string))
    requires Inv(s) && i < |s.operations| && InFlight(s.operations[i])
    ensures Inv(Settled(s, i, Some(f))) && Same(s, Settled(s, i, Some(f)))
  {
    var op := s.operations[i].(pending := false, error := Some(s.operations[i].name + ": " + f.0));
    LifeAppend(s.history, Rejected(i));
    UpdateLives(s.operations, s.history, i, op, Rejected(i));
    var s1 := s.(operations := s.operations[i := op], watchers := (set w | w in s.watchers && w.1 != i),
      history := s.history + [Rejected(i)]);
    RecordKeeps(s1, op.name, f.1);
    hide LivesOk, LogOk, PagesOk;
    assert WatchOk(s1.operations, s1.watchers, s1.joins, s1.attempt, |s1.operations|);
    CommitKeeps(Record(s1, op.name, f.1));
  }

  lemma JointKeeps(s: State, n: nat)
    requires Inv(s) && n in s.joins && forall w :: w in s.watchers ==> w.0 != n
    ensures Inv(JointlySettled(s, n))
    ensures Same(s, JointlySettled(s, n))
    ensures n == s.attempt && s.windows == [] && AllDone(s) ==> JointlySettled(s, n).state.None?
  {
    var s1 := s.(joins := s.joins - {n});
    hide LivesOk, LogOk, PagesOk;
    var s2 := s1.(running := if s1.attempt in s1.joins then Some(s1.attempt) else None);
    DoneMeansNoErrors(s);
    CommitKeeps(s2);
    assert JointlySettled(s, n) == Commit(s2);
  }

  lemma {:induction false} LaunchKeeps(s: State, k: nat)
    requires k <= |s.operations| && s.attempt in s.joins
    requires LivesOk(s.operations, s.history) && WatchOk(s.operations, s.watchers, s.joins, s.attempt, k)
    ensures var t := Launch(s, k);
            && t == s.(operations := t.operations, watchers := t.watchers, history := t.history)
            && |t.operations| == |s.operations|
            && (forall j :: 0 <= j < |s.operations| ==>
              t.operations[j].(pending := s.operations[j].pending) == s.operations[j])
            && LivesOk(t.operations, t.history)
            && WatchOk(t.operations, t.watchers, t.joins, t.attempt, |t.operations|)
    decreases |s.operations| - k
  {
    if k < |s.operations| {
      LaunchOneKeeps(s, k);
      hide LivesOk, WatchOk, LaunchOne;
      LaunchKeeps(LaunchOne(s, k), k + 1);
    }
  }

  lemma LaunchOneKeeps(s: State, k: nat)
    requires k < |s.operations| && s.attempt in s.joins
    requires LivesOk(s.operations, s.history) && WatchOk(s.operations, s.watchers, s.joins, s.attempt, k)
    ensures var t := LaunchOne(s, k);
            && t == s.(operations := t.operations, watchers := t.watchers, history := t.history)
            && |t.operations| == |s.operations|
            && (forall j :: 0 <= j < |s.operations| ==>
              t.operations[j].(pending := s.operations[j].pending) == s.operations[j])
            && LivesOk(t.operations, t.history)
            && WatchOk(t.operations, t.watchers, t.joins, t.attempt, k + 1)
  {
    var op := s.operations[k];
    if !op.done && !op.pending {
      LifeAppend(s.history, Launched(k));
      UpdateLives(s.operations, s.history, k, op.(pending := true), Launched(k));
    }
    hide LivesOk;
  }

  lemma NewAttemptKeeps(s: State)
    requires PagesOk(s.windows, s.participants) && LogOk(s.failures, s.reported, s.recorded)
    requires LivesOk(s.operations, s.history) && WatchOk(s.operations, s.watchers, s.joins, s.attempt, 0)
    ensures var t := Launch(NewAttempt(s), 0);
            && Inv(t)
            && t.attempt == s.attempt + 1 && t.participants == s.participants && t.epoch == s.epoch
            && t.state == Some(Snapshot(Pending, t.attempt, s.failures))
            && forall q :: Has(t.windows, q) <==> q in s.participants
  {
    var s1 := NewAttempt(s);
    ForgivenLives(s.operations, s.history);
    LaunchKeeps(s1, 0);
    var t := Launch(s1, 0);
    forall q | q in s.participants ensures Has(t.windows, q) {
      assert Window(q, None) in t.windows by {
        var k :| 0 <= k < |s.participants| && s.participants[k] == q;
        assert t.windows[k] == Window(q, None);
      }
    }
    assert !HasErrors(t) by {
      forall op | op in t.operations ensures op.error.None? {
        var k :| 0 <= k < |t.operations| && t.operations[k] == op;
        assert s1.operations[k].error.None?;
      }
    }
  }

  lemma ForgivenLives(ops: seq<Operation>, history: seq<Happening>)
    requires LivesOk(ops, history)
    ensures LivesOk(Forgiven(ops), history)
  {
    forall op | op in Forgiven(ops) ensures OperationOk(op) {
      var k :| 0 <= k < |ops| && Forgiven(ops)[k] == op;
      assert OperationOk(ops[k]);
    }
  }

  lemma BeginKeeps(s: State, epoch: string, labels: seq<string>)
    requires Inv(s) && s.state.None? && !Busy(s)
    ensures var t := Begun(s, epoch, labels);
            && Inv(t)
            && t.attempt == s.attempt + 1 && t.participants == s.participants && t.epoch == Some(epoch)
            && t.state == Some(Snapshot(Pending, t.attempt, []))
            && forall q :: Has(t.windows, q) <==> q in s.participants
  {
    var s0 := s.(failures := [], reported := {}, recorded := [], epoch := Some(epoch), operations := Fresh(labels),
      history := []);
    NewAttemptKeeps(s0);
  }

  // --------------------------------------------------------------- whole runs

  /** A begin while the promise of an opened attempt is kept leaves the barrier open. */
  lemma BusyBeginKeeps(s: State, epoch: string, labels: seq<string>)
    requires Inv(s) && s.state.None? && Busy(s)
    ensures var t := Begun(s, epoch, labels);
            && Inv(t)
            && t == s.(failures := [], reported := {}, recorded := [], epoch := Some(epoch),
              operations := Fresh(labels), history := [])
            && Untouched(t.operations) && (AllDone(t) <==> labels == [])
  {
    var t := Begun(s, epoch, labels);
    assert forall w :: w in s.watchers ==> s.operations[w.1] in s.operations;
    assert s.watchers == {};
    assert labels != [] ==> !t.operations[0].done;
  }

  /** What one event does to the pages, the attempt and the opening of the barrier. */
  ghost predicate Moves(s: State, e: Event, t: State) {
    && Inv(t)
    && (forall p :: p in t.participants <==> Joined(p in s.participants, e, p))
    && OpensDone(s, t)
    && (if t.attempt == s.attempt then
          && (s.state.None? ==> t.state.None?)
          && (s.state.Some? ==> t.epoch == s.epoch && forall p :: Has(t.windows, p) <==>
            Waited(s, Has(s.windows, p), e, p))
        else
          && t.attempt == s.attempt + 1
          && (e.Begin? || e.Retry?)
          && t.state.Some?
          && forall p :: Has(t.windows, p) <==> p in s.participants)
  }

  /** A step that opens the barrier finds everything done. */
  predicate OpensDone(s: State, t: State) { s.state.Some? && t.state.None? ==> AllDone(t) }

  predicate Joined(was: bool, e: Event, p: string) {
    match e
    case Register(q) => q == p || was
    case Remove(q) => q != p && was
    case _ => was
  }

  /** A page stops owing by leaving, or by reporting success for this very attempt. */
  predicate Waited(s: State, was: bool, e: Event, p: string) {
    match e
    case Register(q) => q == p || was
    case Remove(q) => q != p && was
    case Report(q, epoch, attempt, error) => !(q == p && error == "" && s.epoch == Some(epoch)
      && s.attempt == attempt) && was
    case _ => was
  }

  lemma RegisterMoves(s: State, p: string)
    requires Inv(s)
    ensures Moves(s, Register(p), Registered(s, p))
  {
    RegisterKeeps(s, p);
    hide Inv, Registered, Has;
  }

  lemma CommitMoves(s: State)
    ensures var t := Commit(s);
            && t.participants == s.participants && t.windows == s.windows && t.attempt == s.attempt
            && t.epoch == s.epoch
    ensures s.state.None? ==> Commit(s).state.None?
    ensures OpensDone(s, Commit(s))
  { }

  lemma RemoveMoves(s: State, p: string)
    requires Inv(s)
    ensures Moves(s, Remove(p), Removed(s, p))
  {
    RemoveKeeps(s, p);
    hide Inv, Commit, Has;
    CommitMoves(s.(participants := Dropped(s.participants, p), windows := Without(s.windows, p)));
  }

  lemma BeginMoves(s: State, epoch: string, labels: seq<string>)
    requires Inv(s) && s.state.None?
    ensures Moves(s, Begin(epoch, labels), Begun(s, epoch, labels))
  {
    if Busy(s) { BusyBeginKeeps(s, epoch, labels); } else { BeginKeeps(s, epoch, labels); }
    hide Inv, Begun, Has;
  }

  lemma RetryMoves(s: State)
    requires Inv(s)
    ensures Moves(s, Retry, Retried(s))
  {
    if !Busy(s) { RetryKeeps(s); }
    hide Inv, NewAttempt, Launch, Has, HasErrors;
  }

  lemma RetryKeeps(s: State)
    requires Inv(s)
    ensures var t := Launch(NewAttempt(s), 0);
            && Inv(t) && t.state.Some?
            && t.attempt == s.attempt + 1 && t.participants == s.participants
            && forall q :: Has(t.windows, q) <==> q in s.participants
  {
    hide LivesOk, LogOk, PagesOk, HasErrors, AllDone, NewAttempt, Launch, Has;
    assert WatchOk(s.operations, s.watchers, s.joins, s.attempt, 0);
    hide WatchOk;
    NewAttemptKeeps(s);
  }

  lemma ReportMoves(s: State, p: string, epoch: string, attempt: nat, error: string)
    requires Inv(s)
    ensures Moves(s, Report(p, epoch, attempt, error), Reported(s, p, epoch, attempt, error))
  {
    ReportKeeps(s, p, epoch, attempt, error);
    hide Inv, Reported, Has;
  }

  lemma TimeoutMoves(s: State)
    requires Inv(s) && s.timer
    ensures Moves(s, Timeout, TimedOut(s))
  {
    TimeoutKeeps(s);
    hide Inv, TimedOut, Has;
  }

  lemma SettleMoves(s: State, i: nat, failure: Option<(string, string)>)
    requires Inv(s) && i < |s.operations| && InFlight(s.operations[i])
    ensures Moves(s, Settle(i, failure), Settled(s, i, failure))
  {
    SettleKeeps(s, i, failure);
    hide Inv, Has, Settled;
  }

  lemma JointMoves(s: State, n: nat)
    requires Inv(s) && n in s.joins && forall w :: w in s.watchers ==> w.0 != n
    ensures Moves(s, AllSettled(n), JointlySettled(s, n))
  {
    JointKeeps(s, n);
    hide Inv, Has, JointlySettled;
  }

  // --------------------------------------------------------------- whole runs

  lemma StepMoves(s: State, e: Event)
    requires Inv(s)
    ensures Moves(s, e, Step(s, e)) || (!Enabled(s, e) && Step(s, e) == s)
  {
    hide Inv, Moves;
    if Enabled(s, e) {
      match e
      case Register(p) => RegisterMoves(s, p);
      case Remove(p) => RemoveMoves(s, p);
      case Begin(epoch, labels) => BeginMoves(s, epoch, labels);
      case Retry => RetryMoves(s);
      case Report(p, epoch, attempt, error) => ReportMoves(s, p, epoch, attempt, error);
      case Timeout => TimeoutMoves(s);
      case Settle(i, failure) => SettleMoves(s, i, failure);
      case AllSettled(n) => JointMoves(s, n);
    }
  }

  lemma {:induction false} RunKeepsInv(es: seq<Event>)
    ensures Inv(Run(es))
  {
    if es != [] {
      RunKeepsInv(es[..|es| - 1]);
      StepMoves(Run(es[..|es| - 1]), es[|es| - 1]);
    }
  }

  lemma {:induction false} MemberMeansParticipant(es: seq<Event>, p: string)
    ensures Member(es, p) <==> p in Run(es).participants
  {
    if es != [] {
      MemberMeansParticipant(es[..|es| - 1], p);
      RunKeepsInv(es[..|es| - 1]);
      StepMoves(Run(es[..|es| - 1]), es[|es| - 1]);
      hide Inv, Step;
    }
  }

  /** The pages the barrier waits for are exactly those that owe a report. */
  lemma {:induction false} WaitsForWhoOwes(es: seq<Event>, p: string)
    requires Run(es).state.Some? || (es != [] && Run(es[..|es| - 1]).state.Some?)
    ensures Owes(es, p) <==> Has(Run(es).windows, p)
  {
    if es != [] {
      var before := es[..|es| - 1];
      RunKeepsInv(before);
      StepMoves(Run(before), es[|es| - 1]);
      hide Inv, Step;
      if Run(es).attempt != Run(before).attempt { MemberMeansParticipant(before, p); }
      else { WaitsForWhoOwes(before, p); }
    }
  }

  // ---------------------------------------------------------- opening, closing

  /** The step that opens the barrier finds every operation succeeded and no page owing. */
  lemma OpensOnlyWhenClean(es: seq<Event>)
    requires Opens(es)
    ensures var s := Run(es); forall i: nat :: i < |s.operations| ==>
        s.operations[i].done && LifeOf(s.history, i) == Finished
    ensures forall p :: !Owes(es, p)
  {
    OpenedIsDone(es);
    hide *;
    forall p ensures !Owes(es, p) { OwesNoMore(es, p); }
  }

  lemma OpenedIsDone(es: seq<Event>)
    requires Opens(es)
    ensures var s := Run(es); forall i: nat :: i < |s.operations| ==>
        s.operations[i].done && LifeOf(s.history, i) == Finished
  {
    var s := Run(es[..|es| - 1]);
    RunKeepsInv(es[..|es| - 1]);
    RunKeepsInv(es);
    StepMoves(s, es[|es| - 1]);
    hide Run, Step, StateOk, WatchOk, LogOk, PagesOk;
  }

  /** The page leaves, or reports success for this attempt of this lock. */
  predicate Relieves(e: Event, p: string, epoch: Option<string>, attempt: nat) {
    e == Remove(p) || (e.Report? && e.peer == p && Some(e.epoch) == epoch && e.attempt == attempt && e.error == "")
  }

  lemma RunOne(es: seq<Event>, e: Event)
    ensures Run(es + [e]) == Step(Run(es), e)
  {
    assert (es + [e])[..|es|] == es;
  }

  /** The last event opens the barrier. */
  ghost predicate Opens(es: seq<Event>) {
    es != [] && Run(es[..|es| - 1]).state.Some? && Run(es).state.None?
  }

  /** The current attempt began with event `b`; the page took part then, or registered later. */
  ghost predicate TakesPart(es: seq<Event>, b: nat, j: nat, p: string) {
    && b <= j < |es|
    && Run(es[..b]).attempt != Run(es[..b + 1]).attempt == Run(es).attempt
    && (if j == b then Member(es[..b], p) else es[j] == Register(p))
  }

  /** The same in terms of the events: every page that took part when the last attempt began, and
      every one that joined it later, then left or reported success for that attempt. */
  lemma EveryPageReported(es: seq<Event>, b: nat, j: nat, p: string)
    requires Opens(es) && TakesPart(es, b, j, p)
    ensures exists m :: j < m < |es| && Relieves(es[m], p, Run(es).epoch, Run(es).attempt)
  {
    OpensFromClosed(es);
    hide *;
    OwesNoMore(es, p);
    OwesFrom(es, b, j, p);
    OwesToEnd(es, j + 1, p);
  }

  lemma OpensFromClosed(es: seq<Event>)
    requires Opens(es)
    ensures es != [] && Run(es[..|es| - 1]).state.Some?
  { hide Run; }

  lemma OwesToEnd(es: seq<Event>, j: nat, p: string)
    requires j <= |es| && Owes(es[..j], p) && Run(es[..j]).attempt == Run(es).attempt
    requires es != [] && Run(es[..|es| - 1]).state.Some?
    ensures Owes(es, p) || exists m :: j <= m < |es| && Relieves(es[m], p, Run(es).epoch, Run(es).attempt)
  {
    hide *;
    assert es[..|es|] == es;
    OwesUntil(es, j, |es|, p);
  }

  lemma OwesNoMore(es: seq<Event>, p: string)
    requires Opens(es)
    ensures !Owes(es, p)
  {
    RunKeepsInv(es);
    WaitsForWhoOwes(es, p);
    hide Run, Owes, LogOk, WatchOk, LivesOk, PagesOk;
  }

  lemma OwesFrom(es: seq<Event>, b: nat, j: nat, p: string)
    requires TakesPart(es, b, j, p)
    ensures j < |es| && Owes(es[..j + 1], p) && Run(es[..j + 1]).attempt == Run(es).attempt
  {
    hide Run, Owes, Member;
    assert es[..j + 1][..j] == es[..j];
    SameAttempt(es, b, j);
    OwesNow(es[..j + 1], p);
  }

  lemma SameAttempt(es: seq<Event>, b: nat, j: nat)
    requires b <= j < |es| && Run(es[..b]).attempt != Run(es[..b + 1]).attempt == Run(es).attempt
    ensures Run(es[..j + 1]).attempt == Run(es).attempt
    ensures Run(es[..j]).attempt == Run(es).attempt <==> b < j
  {
    hide *;
    assert es[..|es|] == es;
    AttemptsRise(es, b + 1, j + 1);
    if j > b { AttemptsRise(es, b + 1, j); }
    AttemptsRise(es, j, |es|);
    AttemptsRise(es, j + 1, |es|);
  }

  lemma OwesNow(es: seq<Event>, p: string)
    requires es != []
    requires if Run(es).attempt != Run(es[..|es| - 1]).attempt then Member(es[..|es| - 1], p)
        else es[|es| - 1] == Register(p)
    ensures Owes(es, p)
  { hide Run; }

  /** Attempts only rise, and an open barrier stays open within an attempt. */
  predicate Later(s: State, t: State) {
    s.attempt <= t.attempt && (s.attempt == t.attempt && s.state.None? ==> t.state.None?)
  }

  lemma StepLater(s: State, e: Event)
    requires Inv(s)
    ensures Later(s, Step(s, e))
    ensures Step(s, e).attempt == s.attempt && s.state.Some? ==> Step(s, e).epoch == s.epoch
  {
    StepMoves(s, e);
    hide Inv, Step, Joined, Waited;
  }

  lemma {:induction false} AttemptsRise(es: seq<Event>, j: nat, k: nat)
    requires j <= k <= |es|
    ensures Later(Run(es[..j]), Run(es[..k])) && Run(es[..j]).attempt <= Run(es[..k]).attempt
    decreases k
  {
    hide Inv, Step;
    if j < k {
      AttemptsRise(es, j, k - 1);
      assert es[..k][..k - 1] == es[..k - 1];
      RunKeepsInv(es[..k - 1]);
      StepLater(Run(es[..k - 1]), es[k - 1]);
    }
  }

  /** While a closed barrier keeps its attempt it keeps its epoch. */
  lemma {:induction false} EpochStays(es: seq<Event>, j: nat, k: nat)
    requires j <= k <= |es| && Run(es[..j]).attempt == Run(es[..k]).attempt
    requires j < k ==> Run(es[..k - 1]).state.Some?
    ensures Run(es[..j]).epoch == Run(es[..k]).epoch
    ensures j < k ==> Run(es[..k - 1]).attempt == Run(es[..k]).attempt
    ensures j + 1 < k ==> Run(es[..k - 2]).state.Some?
    decreases k
  {
    hide Inv, Step;
    if j < k {
      AttemptsRise(es, j, k - 1);
      AttemptsRise(es, k - 1, k);
      if j + 1 < k {
        AttemptsRise(es, j, k - 2);
        AttemptsRise(es, k - 2, k - 1);
      }
      EpochStays(es, j, k - 1);
      assert es[..k][..k - 1] == es[..k - 1];
      RunKeepsInv(es[..k - 1]);
      StepLater(Run(es[..k - 1]), es[k - 1]);
    }
  }

  lemma {:induction false} OwesUntil(es: seq<Event>, j: nat, k: nat, p: string)
    requires j <= k <= |es| && Owes(es[..j], p)
    requires Run(es[..j]).attempt == Run(es[..k]).attempt && (j < k ==> Run(es[..k - 1]).state.Some?)
    ensures Owes(es[..k], p) ||
      exists m :: j <= m < k && Relieves(es[m], p, Run(es[..k]).epoch, Run(es[..k]).attempt)
    decreases k
  {
    hide *;
    if j < k {
      EpochStays(es, j, k);
      EpochStays(es, j, k - 1);
      assert es[..k][..k - 1] == es[..k - 1];
      OwesUntil(es, j, k - 1, p);
      if Owes(es[..k - 1], p) { OwesOn(es[..k], p); }
    }
  }

  lemma OwesOn(es: seq<Event>, p: string)
    requires es != [] && Owes(es[..|es| - 1], p) && Run(es).attempt == Run(es[..|es| - 1]).attempt
    ensures Owes(es, p) || Relieves(es[|es| - 1], p, Run(es).epoch, Run(es).attempt)
  { hide Run; }

  /** Once open, the barrier stays open until the next attempt, which only a begin or a retry starts. */
  lemma {:induction false} StaysOpen(es: seq<Event>, k: nat)
    requires k <= |es| && Run(es[..k]).state.None?
    ensures Run(es).attempt == Run(es[..k]).attempt ==> Run(es).state.None?
    ensures (forall j :: k <= j < |es| ==> !es[j].Begin? && !es[j].Retry?) ==> Run(es).attempt == Run(es[..k]).attempt
  {
    if k == |es| { assert es[..k] == es; }
    else {
      var before := es[..|es| - 1];
      assert before[..k] == es[..k];
      StaysOpen(before, k);
      AttemptsRise(es, k, |es| - 1);
      RunKeepsInv(before);
      StepMoves(Run(before), es[|es| - 1]);
      hide Inv, Step;
    }
  }

  lemma NoneWaits(windows: seq<Window>)
    ensures windows == [] <==> forall p :: !Has(windows, p)
  {
    if windows != [] { assert Has(windows, windows[0].peer); }
  }

  lemma NobodyOwes(es: seq<Event>)
    requires Run(es).state.Some?
    ensures Run(es).windows == [] <==> forall p :: !Owes(es, p)
  {
    hide *;
    NoneWaits(Run(es).windows);
    if Run(es).windows == [] {
      forall p ensures !Owes(es, p) { WaitsForWhoOwes(es, p); }
    } else {
      var p :| Has(Run(es).windows, p);
      WaitsForWhoOwes(es, p);
    }
  }

  /** The barrier is never stuck: closed with every operation succeeded and no page owing, only the
      joint promise of the current attempt is outstanding, and its settling opens the barrier. */
  lemma CleanBarrierOpens(es: seq<Event>)
    requires Run(es).state.Some?
    requires forall i: nat :: i < |Run(es).operations| ==> LifeOf(Run(es).history, i) == Finished
    requires forall p :: !Owes(es, p)
    ensures var e := AllSettled(Run(es).attempt); Enabled(Run(es), e) && Run(es + [e]).state.None?
  {
    var s := Run(es);
    var e := AllSettled(s.attempt);
    RunKeepsInv(es);
    NobodyOwes(es);
    assert (es + [e])[..|es|] == es;
    hide Run, Owes;
    assert AllDone(s);
    JointKeeps(s, s.attempt);
  }

  lemma StaleReport(s: State, p: string, epoch: string, attempt: nat, error: string)
    requires s.epoch != Some(epoch) || s.attempt != attempt
    ensures Step(s, Report(p, epoch, attempt, error)) == s
  { hide Has, Commit, Record, Marked, Without; }

  /** A report for an earlier attempt or another epoch is void whenever it arrives. */
  lemma LateReportIsVoid(es: seq<Event>, j: nat, p: string, error: string)
    requires j < |es| && Run(es[..j]).attempt != Run(es[..j + 1]).attempt && Run(es[..j]).epoch.Some?
    ensures Run(es + [Report(p, Run(es[..j]).epoch.value, Run(es[..j]).attempt, error)]) == Run(es)
  {
    hide *;
    AttemptsRise(es, j, j + 1);
    AttemptsRise(es, j + 1, |es|);
    assert es[..|es|] == es;
    RunOne(es, Report(p, Run(es[..j]).epoch.value, Run(es[..j]).attempt, error));
    StaleReport(Run(es), p, Run(es[..j]).epoch.value, Run(es[..j]).attempt, error);
  }

  lemma TimeoutStep(s: State)
    requires Inv(s) && s.timer
    ensures Step(s, Timeout) == TimedOut(s) && s.state.Some?
  { hide TimedOut, LogOk, WatchOk, LivesOk, PagesOk; }

  /** A time-out starts nothing and ends nothing; with anything unfinished it can only report. */
  lemma TimeoutOnlyReports(es: seq<Event>)
    requires Run(es).timer
    ensures var s, t := Run(es), Run(es + [Timeout]);
            && t.history == s.history && t.watchers == s.watchers
            && (forall p :: Owes(es, p) ==> Owes(es + [Timeout], p))
            && (t.state.None? <==> AllDone(s) && forall p :: !Owes(es, p))
            && (t.state.Some? ==> t.state.value.phase == Failed)
  {
    hide *;
    var s := Run(es);
    assert (es + [Timeout])[..|es|] == es;
    RunOne(es, Timeout);
    RunKeepsInv(es);
    TimeoutKeeps(s);
    TimeoutStep(s);
    forall p | Owes(es, p) ensures Owes(es + [Timeout], p) {
      WaitsForWhoOwes(es, p);
      WaitsForWhoOwes(es + [Timeout], p);
    }
    NobodyOwes(es);
  }

  // ------------------------------------------------------ executions and log

  /** Between two starts of an operation it was rejected, and it had not succeeded before. */
  lemma RestartedOnlyAfterRejection(es: seq<Event>, i: nat, j: nat, k: nat)
    requires j < k < |Run(es).history| && i < |Run(es).operations|
    requires Run(es).history[j] == Run(es).history[k] == Launched(i)
    ensures exists m :: j < m < k && Run(es).history[m] == Rejected(i)
    ensures forall m :: 0 <= m < k ==> Run(es).history[m] != Succeeded(i)
  {
    hide *;
    RunKeepsInv(es);
    LivesUnbroken(Run(es), i);
    LifeSeparates(Run(es).history, i, j, k);
  }

  lemma LivesUnbroken(s: State, i: nat)
    requires Inv(s) && i < |s.operations|
    ensures LifeOf(s.history, i) != Broken
  { hide LogOk, WatchOk, StateOk, PagesOk, LifeOf; }

  lemma LifeSeparates(h: seq<Happening>, i: nat, j: nat, k: nat)
    requires j < k < |h| && h[j] == h[k] == Launched(i) && LifeOf(h, i) != Broken
    ensures exists m :: j < m < k && h[m] == Rejected(i)
    ensures forall m :: 0 <= m < k ==> h[m] != Succeeded(i)
  {
    assert h[..|h|] == h;
    LifeAt(h, i, j);
    LifeAt(h, i, k);
    RunningEndsByRejection(h, i, j + 1, k);
    forall m | 0 <= m < k ensures h[m] != Succeeded(i) {
      if h[m] == Succeeded(i) {
        LifeAt(h, i, m);
        FinishedForGood(h, i, m + 1, k);
        assert false;
      }
    }
  }

  /** In an unbroken life each happening finds the operation in the right state. */
  lemma LifeAt(h: seq<Happening>, i: nat, k: nat)
    requires k < |h| && h[k].operation == i && LifeOf(h, i) != Broken
    ensures LifeOf(h[..k], i) == if h[k].Launched? then Idle else Running
    ensures LifeOf(h[..k + 1], i) == Lived(LifeOf(h[..k], i), h[k])
  {
    assert h[..|h|] == h && h[..k + 1][..k] == h[..k];
    NeverBroken(h, i, k + 1, |h|);
  }

  lemma {:induction false} NeverBroken(h: seq<Happening>, i: nat, j: nat, k: nat)
    requires j <= k <= |h| && LifeOf(h[..k], i) != Broken
    ensures LifeOf(h[..j], i) != Broken
    decreases k
  {
    if j < k {
      assert h[..k][..k - 1] == h[..k - 1];
      NeverBroken(h, i, j, k - 1);
    }
  }

  lemma {:induction false} RunningEndsByRejection(h: seq<Happening>, i: nat, j: nat, k: nat)
    requires j <= k <= |h| && LifeOf(h[..j], i) == Running && LifeOf(h[..k], i) == Idle
    ensures exists m :: j <= m < k && h[m] == Rejected(i)
    decreases k
  {
    if j < k {
      assert h[..k][..k - 1] == h[..k - 1];
      if h[k - 1] != Rejected(i) { RunningEndsByRejection(h, i, j, k - 1); }
    }
  }

  lemma {:induction false} FinishedForGood(h: seq<Happening>, i: nat, j: nat, k: nat)
    requires j <= k <= |h| && LifeOf(h[..j], i) == Finished
    ensures LifeOf(h[..k], i) == Finished || LifeOf(h[..k], i) == Broken
    decreases k
  {
    if j < k {
      assert h[..k][..k - 1] == h[..k - 1];
      FinishedForGood(h, i, j, k - 1);
    }
  }

  /** A retry of a failed attempt has every unfinished operation in flight again, restarts only those
      that were not, and every page owes anew. */
  lemma RetryTakesUpTheRest(es: seq<Event>, i: nat, p: string)
    requires Run(es).state.Some? && Run(es).state.value.phase == Failed && i < |Run(es).operations|
    ensures var s, t := Run(es), Run(es + [Retry]);
            && t.attempt == s.attempt + 1 && t.state == Some(Snapshot(Pending, t.attempt, s.failures))
            && |t.operations| == |s.operations|
            && (t.operations[i].done <==> s.operations[i].done)
            && (!s.operations[i].done ==> InFlight(t.operations[i]) && LifeOf(t.history, i) == Running)
            && (Owes(es + [Retry], p) <==> Member(es, p))
  {
    var s := Run(es);
    RunOne(es, Retry);
    RunKeepsInv(es);
    RunKeepsInv(es + [Retry]);
    assert (es + [Retry])[..|es|] == es;
    RetryIsNewAttempt(s);
    RetryKeeps(s);
    RetryOperations(s);
    if !Run(es + [Retry]).operations[i].done { NothingRejected(Run(es + [Retry]), i); }
    RetryOwes(es, p);
    hide *;
  }

  lemma RetryOwes(es: seq<Event>, p: string)
    requires Run(es + [Retry]).attempt != Run(es).attempt
    ensures Owes(es + [Retry], p) <==> Member(es, p)
  {
    assert (es + [Retry])[..|es|] == es;
    hide Run;
  }

  lemma RetryIsNewAttempt(s: State)
    requires s.state.Some? && s.state.value.phase == Failed
    ensures Step(s, Retry) == Launch(NewAttempt(s), 0)
  { hide Launch, NewAttempt; }

  lemma RetryOperations(s: State)
    requires Inv(s)
    ensures var t := Launch(NewAttempt(s), 0);
            && |t.operations| == |s.operations| && t.state == Some(Snapshot(Pending, t.attempt, s.failures))
            && forall i: nat :: i < |s.operations| ==> (t.operations[i].done <==> s.operations[i].done)
  {
    hide LogOk, PagesOk, StateOk, HasErrors;
    NewAttemptWatches(s);
    LaunchKeeps(NewAttempt(s), 0);
    LaunchLeavesState(NewAttempt(s), 0);
    hide Launch, LivesOk, WatchOk;
    var n, t := NewAttempt(s), Launch(NewAttempt(s), 0);
    forall i: nat | i < |s.operations| ensures t.operations[i].done <==> s.operations[i].done {
      assert t.operations[i].(pending := n.operations[i].pending) == n.operations[i];
    }
  }

  lemma NewAttemptWatches(s: State)
    requires LivesOk(s.operations, s.history) && WatchOk(s.operations, s.watchers, s.joins, s.attempt, 0)
    ensures var n := NewAttempt(s);
            && LivesOk(n.operations, n.history)
            && WatchOk(n.operations, n.watchers, n.joins, n.attempt, 0)
  {
    ForgivenLives(s.operations, s.history);
    hide LivesOk, Waiting;
  }

  /** Under a pending snapshot every unfinished operation is in flight. */
  lemma NothingRejected(s: State, i: nat)
    requires Inv(s) && i < |s.operations| && s.state.Some? && s.state.value.phase == Pending && !s.operations[i].done
    ensures InFlight(s.operations[i]) && LifeOf(s.history, i) == Running
  {
    hide LogOk, PagesOk, LifeOf;
    assert s.operations[i] in s.operations;
  }

  /** The log shown with the snapshot is the first failure of the cycle and the latest three, none
      recorded twice; a finished operation shows no error. */
  lemma LogIsDigest(es: seq<Event>)
    ensures var s := Run(es);
            && s.failures == Digest(s.recorded)
            && (s.state.Some? ==> s.state.value.diagnostics == Digest(s.recorded))
            && (forall j, k :: 0 <= j < k < |s.recorded| ==> s.recorded[j] != s.recorded[k])
            && forall i: nat :: i < |s.operations| && LifeOf(s.history, i) == Finished ==>
              s.operations[i].done && s.operations[i].error.None?
  {
    RunKeepsInv(es);
    var s := Run(es);
    hide Run;
    forall i: nat | i < |s.operations| && LifeOf(s.history, i) == Finished
      ensures s.operations[i].done && s.operations[i].error.None?
    {
      assert OperationOk(s.operations[i]);
    }
  }

  // -------------------------------------------- beginning while a cycle runs

  /** The latest begin met the kept promise of an opened attempt, and no attempt has started since. */
  ghost predicate Stranded(es: seq<Event>) {
    if es == [] then false
    else
      var before, e := es[..|es| - 1], es[|es| - 1];
      var s := Run(before);
      if e.Begin? && s.state.None? && Busy(s) then e.labels != []
      else Run(es).attempt == s.attempt && Stranded(before)
  }

  lemma {:induction false} StrandedIsOpen(es: seq<Event>)
    requires Stranded(es)
    ensures Run(es).state.None?
  {
    var before, e := es[..|es| - 1], es[|es| - 1];
    var s := Run(before);
    RunKeepsInv(before);
    if e.Begin? && s.state.None? && Busy(s) { BusyBeginKeeps(s, e.epoch, e.labels); }
    else {
      StrandedIsOpen(before);
      StepLater(s, e);
    }
    hide Inv, Begun;
  }

  /** An open barrier has every operation done exactly if the latest begin was not stranded: that
      begin is the one way in which the wallet is locked, the barrier open and nothing cleaned up. */
  lemma {:induction false} OpenIsDoneIff(es: seq<Event>)
    requires Run(es).state.None?
    ensures AllDone(Run(es)) <==> !Stranded(es)
  {
    if es != [] {
      var before, e := es[..|es| - 1], es[|es| - 1];
      var s := Run(before);
      RunKeepsInv(before);
      if e.Begin? && s.state.None? && Busy(s) { BusyBeginKeeps(s, e.epoch, e.labels); }
      else {
        StepMoves(s, e);
        if s.state.None? {
          OpenIsDoneIff(before);
          OpenKeepsOperations(s, e);
        } else if Stranded(before) {
          StrandedIsOpen(before);
        }
      }
      hide Inv, Begun, Step;
    }
  }

  lemma NothingInFlight(s: State)
    requires Inv(s) && s.state.None?
    ensures forall i: nat :: i < |s.operations| ==> !InFlight(s.operations[i])
  {
    forall i: nat | i < |s.operations| ensures !InFlight(s.operations[i]) { assert s.operations[i] in s.operations; }
  }

  lemma OpenKeepsOperations(s: State, e: Event)
    requires Inv(s) && s.state.None? && Step(s, e).state.None? && !(e.Begin? && Busy(s))
    ensures Step(s, e).operations == s.operations
  {
    NothingInFlight(s);
    match e
    case Begin(epoch, labels) => BeginKeeps(s, epoch, labels); assert false;
    case Retry => if !Busy(s) { RetryKeeps(s); assert false; }
    case _ =>
    hide LogOk, PagesOk, WatchOk, Without, Dropped, Marked;
  }

  lemma {:induction false} LaunchLeavesState(s: State, k: nat)
    requires k <= |s.operations|
    ensures Launch(s, k).state == s.state && Launch(s, k).attempt == s.attempt
    decreases |s.operations| - k
  {
    if k < |s.operations| { LaunchLeavesState(LaunchOne(s, k), k + 1); }
  }

  /** `begin` closes the barrier for a new attempt exactly when no promise of an unfailed cycle is
      kept; otherwise it replaces the operations and starts none of them. */
  lemma BeginClosesIff(s: State, epoch: string, labels: seq<string>)
    requires Inv(s)
    ensures Begun(s, epoch, labels).state == Some(Snapshot(Pending, s.attempt + 1, [])) <==> !Busy(s)
    ensures Busy(s) ==> Begun(s, epoch, labels).state == s.state && Begun(s, epoch, labels).operations == Fresh(labels)
  {
    var s0 := s.(failures := [], reported := {}, recorded := [], epoch := Some(epoch), operations := Fresh(labels),
      history := []);
    if !Busy(s) { LaunchLeavesState(NewAttempt(s0), 0); }
    hide Launch;
  }

  /** The promise outlives the opening: the last operation opens the barrier before the joint
      promise settles, and a lock begun in between would start nothing. */
  lemma BusyWindowIsReachable(epoch: string, name: string, labels: seq<string>)
    requires labels != []
    ensures var s := Run([Begin(epoch, [name]), Settle(0, None)]);
            s.state.None? && Busy(s) && Begun(s, epoch, labels).state.None? && !AllDone(Begun(s, epoch, labels))
  {
    var e1, e2 := Begin(epoch, [name]), Settle(0, None);
    assert [e1] + [e2] == [e1, e2] && [] + [e1] == [e1];
    RunOne([], e1);
    RunOne([e1], e2);
    SingleBegins(epoch, name);
    SingleOpens(Run([e1]));
    hide *;
    LaterOperationsWait(Run([e1, e2]), epoch, labels);
  }

  lemma LaterOperationsWait(s: State, epoch: string, labels: seq<string>)
    requires s.state.None? && Busy(s) && labels != []
    ensures Begun(s, epoch, labels).state.None? && !AllDone(Begun(s, epoch, labels))
  {
    assert !Begun(s, epoch, labels).operations[0].done;
  }

  lemma SingleBegins(epoch: string, name: string)
    ensures var s := Step(Initial(), Begin(epoch, [name]));
            s.windows == [] && s.operations == [Operation(name, true, false, None)]
              && s.running == Some(1) == Some(s.attempt)
            && (1, 0) in s.watchers && s.state == Some(Snapshot(Pending, 1, []))
  {
    var n := NewAttempt(Initial().(epoch := Some(epoch), operations := Fresh([name])));
    assert Launch(n, 0) == Launch(LaunchOne(n, 0), 1) == LaunchOne(n, 0);
  }

  lemma SingleOpens(s: State)
    requires |s.operations| == 1 && InFlight(s.operations[0]) && s.windows == [] && (s.attempt, 0) in s.watchers
    requires s.running.Some? && s.state.Some?
    ensures var t := Step(s, Settle(0, None)); t.state.None? && Busy(t)
  { }
}
