/** The wallet lock barrier: after a lock, unlocking stays closed until every cleanup operation
    has succeeded and every page has reported. Operations survive retries; timeouts only report. */
module LockBarrier {
  import opened Prelude

  const PAGE_TIMEOUT := "page plugin teardown timed out"
  const OPERATION_TIMEOUT := " teardown timed out"

  /** A cleanup operation; `pending` while it has a promise, which success leaves in place. */
  datatype Operation = Operation(name: string, pending: bool, done: bool, error: Option<string>)

  /** A page that has not reported yet, or the error it reported. */
  datatype Window = Window(peer: string, error: Option<string>)

  datatype Failure = Failure(attempt: nat, source: string, details: string)

  datatype Phase = Pending | Failed

  datatype Snapshot = Snapshot(phase: Phase, attempt: nat, diagnostics: seq<Failure>)

  /** What happened to the executions of the cycle's operations; the theorems speak about it. */
  datatype Happening = Launched(operation: nat) | Succeeded(operation: nat) | Rejected(operation: nat)

  /** `watchers` are the awaiting continuations (attempt, operation); `joins` the attempts whose
      joint promise has not settled. `recorded` and `history` are bookkeeping of the model. */
  datatype State = State(
    participants: seq<string>,
    windows: seq<Window>,
    operations: seq<Operation>,
    attempt: nat,
    failures: seq<Failure>,
    reported: set<(nat, string)>,
    epoch: Option<string>,
    state: Option<Snapshot>,
    timer: bool,
    running: Option<nat>,
    watchers: set<(nat, nat)>,
    joins: set<nat>,
    recorded: seq<Failure>,
    history: seq<Happening>)

  datatype Event =
    | Register(peer: string)
    | Remove(peer: string)
    | Begin(epoch: string, labels: seq<string>)
    | Retry
    | Report(peer: string, epoch: string, attempt: nat, error: string)
    | Timeout
    | Settle(operation: nat, failure: Option<(string, string)>)   // message and recorded details of a rejection
    | AllSettled(attempt: nat)

  // ------------------------------------------------------------ transitions

  predicate Has(windows: seq<Window>, peer: string) {
    exists w :: w in windows && w.peer == peer
  }

  /** Map.delete. */
  function Without(windows: seq<Window>, peer: string): (r: seq<Window>)
    ensures forall w :: w in r <==> w in windows && w.peer != peer
    ensures Distinct(windows) ==> Distinct(r)
  {
    if windows == [] then []
    else
      assert windows == [windows[0]] + windows[1..];
      var rest := Without(windows[1..], peer);
      if windows[0].peer == peer then rest else [windows[0]] + rest
  }

  predicate Distinct(windows: seq<Window>) {
    forall j, k :: 0 <= j < k < |windows| ==> windows[j].peer != windows[k].peer
  }

  /** Map.set on a present key. */
  function Marked(windows: seq<Window>, peer: string, error: string): (r: seq<Window>)
    ensures |r| == |windows|
    ensures forall k :: 0 <= k < |r| ==>
        r[k] == if windows[k].peer == peer then Window(peer, Some(error)) else windows[k]
  {
    if windows == [] then []
    else [if windows[0].peer == peer then Window(peer, Some(error)) else windows[0]] + Marked(windows[1..], peer, error)
  }

  predicate Unique(peers: seq<string>) { forall j, k :: 0 <= j < k < |peers| ==> peers[j] != peers[k] }

  /** Set.delete. */
  function Dropped(peers: seq<string>, peer: string): (r: seq<string>)
    ensures forall p :: p in r <==> p != peer && p in peers
    ensures Unique(peers) ==> Unique(r)
  {
    if peers == [] then []
    else
      assert peers == [peers[0]] + peers[1..];
      assert Unique(peers) ==> Unique(peers[1..]) && peers[0] !in peers[1..];
      var rest := Dropped(peers[1..], peer);
      if peers[0] == peer then rest else [peers[0]] + rest
  }

  function Key(attempt: nat, source: string, details: string): (nat, string) { (attempt, source + ":" + details) }

  /** The failure log keeps the first failure and the latest three. */
  function Pushed(log: seq<Failure>, f: Failure): seq<Failure> {
    var longer := log + [f];
    if |longer| > 4 then [longer[0]] + longer[2..] else longer
  }

  function Record(s: State, source: string, details: string): State {
    var key := Key(s.attempt, source, details);
    if key in s.reported then s
    else
      var f := Failure(s.attempt, source, details);
      s.(reported := s.reported + {key}, failures := Pushed(s.failures, f), recorded := s.recorded + [f])
  }

  predicate HasErrors(s: State) {
    (exists op :: op in s.operations && op.error.Some?) || (exists w :: w in s.windows && w.error.Some?)
  }

  predicate AllDone(s: State) { forall k :: 0 <= k < |s.operations| ==> s.operations[k].done }

  function Commit(s: State): State {
    if s.state.None? then s
    else if HasErrors(s) then s.(state := Some(Snapshot(Failed, s.attempt, s.failures)))
    else if !AllDone(s) || s.windows != [] then s.(state := Some(Snapshot(Pending, s.attempt, s.failures)))
    else s.(state := None, timer := false)
  }

  function Registered(s: State, peer: string): State {
    var s1 := if peer in s.participants then s else s.(participants := s.participants + [peer]);
    if s.state.Some? && !Has(s.windows, peer) then Commit(s1.(windows := s.windows + [Window(peer, None)])) else s1
  }

  function Removed(s: State, peer: string): State {
    Commit(s.(participants := Dropped(s.participants, peer), windows := Without(s.windows, peer)))
  }

  function Waiting(peers: seq<string>): (r: seq<Window>) {
    seq(|peers|, k requires 0 <= k < |peers| => Window(peers[k], None))
  }

  function Forgiven(ops: seq<Operation>): (r: seq<Operation>)
    ensures |r| == |ops| && forall k :: 0 <= k < |r| ==> r[k] == ops[k].(error := None)
  {
    seq(|ops|, k requires 0 <= k < |ops| => ops[k].(error := None))
  }

  /** Launches or joins the unfinished operations from `k` on. */
  function Launch(s: State, k: nat): State
    requires k <= |s.operations|
    decreases |s.operations| - k
  {
    if k == |s.operations| then s else Launch(LaunchOne(s, k), k + 1)
  }

  function LaunchOne(s: State, k: nat): State
    requires k < |s.operations|
  {
    var op := s.operations[k];
    if op.done then s
    else
      var s1 := s.(watchers := s.watchers + {(s.attempt, k)});
      if op.pending then s1
      else s1.(operations := s.operations[k := op.(pending := true)], history := s.history + [Launched(k)])
  }

  predicate Busy(s: State) { s.running.Some? && !(s.state.Some? && s.state.value.phase == Failed) }

  /** A new attempt, before its operations are launched. */
  function NewAttempt(s: State): State {
    var n := s.attempt + 1;
    s.(attempt := n, windows := Waiting(s.participants), operations := Forgiven(s.operations),
       state := Some(Snapshot(Pending, n, s.failures)), timer := true, running := Some(n), joins := s.joins + {n})
  }

  function Retried(s: State): State {
    if Busy(s) then s else Launch(NewAttempt(s), 0)
  }

  function Fresh(labels: seq<string>): seq<Operation> {
    seq(|labels|, k requires 0 <= k < |labels| => Operation(labels[k], false, false, None))
  }

  function Begun(s: State, epoch: string, labels: seq<string>): State {
    Retried(s.(failures := [], reported := {}, recorded := [], epoch := Some(epoch), operations := Fresh(labels),
      history := []))
  }

  function Reported(s: State, peer: string, epoch: string, attempt: nat, error: string): State {
    if s.epoch != Some(epoch) || attempt != s.attempt || !Has(s.windows, peer) then s
    else if error != "" then Commit(Record(s.(windows := Marked(s.windows, peer, error)), "page:" + peer, error))
    else Commit(s.(windows := Without(s.windows, peer)))
  }

  function TimeoutPages(s: State, k: nat): State
    requires k <= |s.windows|
    decreases |s.windows| - k
  {
    if k == |s.windows| then s
    else if s.windows[k].error.Some? then TimeoutPages(s, k + 1)
    else
      var w := s.windows[k];
      TimeoutPages(Record(s.(windows := s.windows[k := Window(w.peer, Some(PAGE_TIMEOUT))]), "page:" + w.peer,
        PAGE_TIMEOUT), k + 1)
  }

  function TimeoutOperations(s: State, k: nat): State
    requires k <= |s.operations|
    decreases |s.operations| - k
  {
    if k == |s.operations| then s
    else if s.operations[k].done then TimeoutOperations(s, k + 1)
    else
      var op := s.operations[k];
      var text := op.name + OPERATION_TIMEOUT;
      TimeoutOperations(Record(s.(operations := s.operations[k := op.(error := Some(text))]), op.name, text), k + 1)
  }

  function TimedOut(s: State): State {
    Commit(TimeoutOperations(TimeoutPages(s.(timer := false), 0), 0))
  }

  predicate InFlight(op: Operation) { op.pending && !op.done }

  /** An execution settles: every continuation awaiting it runs; only the one of the current
      attempt records a rejection and commits. */
  function Settled(s: State, i: nat, failure: Option<(string, string)>): State
    requires i < |s.operations|
  {
    var op := s.operations[i];
    var awake := (s.attempt, i) in s.watchers;
    var rest := set w | w in s.watchers && w.1 != i;
    match failure
    case None =>
      var s1 := s.(operations := s.operations[i := op.(done := true, error := None)], watchers := rest,
        history := s.history + [Succeeded(i)]);
      if awake then Commit(s1) else s1
    case Some(f) =>
      var s1 := s.(operations := s.operations[i := op.(pending := false, error := Some(op.name + ": " + f.0))],
        watchers := rest,
                   history := s.history + [Rejected(i)]);
      if awake then Commit(Record(s1, op.name, f.1)) else s1
  }

  function JointlySettled(s: State, n: nat): State {
    var s1 := Commit(s.(joins := s.joins - {n}));
    if s1.running == Some(n) then s1.(running := None) else s1
  }

  /** `Begin` only on an open barrier: the worker's lock path looks at the snapshot in the same stretch. */
  ghost predicate Enabled(s: State, e: Event) {
    match e
    case Begin(_, _) => s.state.None?
    case Timeout => s.timer
    case Settle(i, _) => i < |s.operations| && InFlight(s.operations[i])
    case AllSettled(n) => n in s.joins && forall w :: w in s.watchers ==> w.0 != n
    case _ => true
  }

  ghost function Step(s: State, e: Event): State {
    if !Enabled(s, e) then s else
    match e
    case Register(p) => Registered(s, p)
    case Remove(p) => Removed(s, p)
    case Begin(epoch, labels) => Begun(s, epoch, labels)
    case Retry => Retried(s)
    case Report(p, epoch, attempt, error) => Reported(s, p, epoch, attempt, error)
    case Timeout => TimedOut(s)
    case Settle(i, failure) => Settled(s, i, failure)
    case AllSettled(n) => JointlySettled(s, n)
  }

  function Initial(): State {
    State([], [], [], 0, [], {}, None, None, false, None, {}, {}, [], [])
  }

  ghost function Run(es: seq<Event>): State {
    if es == [] then Initial() else Step(Run(es[..|es| - 1]), es[|es| - 1])
  }
}
