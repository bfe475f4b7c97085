/** The coordinator's serial request queue: handlers run one after another in arrival order, and a
    request aborted before its turn is answered at once without ever running. */
module RequestQueue {
  import opened Prelude

  /** `Handled(i)` is whatever the handler of request i returned or threw. */
  datatype Response = Disconnected | Handled(request: nat)

  datatype Request = Request(peer: string, signalled: bool, aborted: bool, started: bool, ran: bool,
    response: Option<Response>)

  datatype Happening = Begins(request: nat) | Ends(request: nat)

  /** `next` is the first request that did not have its turn; `running` the one whose handler runs. */
  datatype State = State(requests: seq<Request>, next: nat, running: Option<nat>, revoked: set<string>,
    log: seq<Happening>)

  datatype Event =
    | Enqueue(peer: string, signalled: bool, aborted: bool)
    | Execute
    | HandlerSettles
    | Abort(request: nat)
    | Revoke(peer: string)

  // ------------------------------------------------------------ transitions

  /** Promise.race: the first answer counts. */
  function Answered(q: Request, r: Response): Request {
    if q.response.Some? then q else q.(response := Some(r))
  }

  function Enqueued(s: State, peer: string, signalled: bool, aborted: bool): State {
    var q := Request(peer, signalled, signalled && aborted, false, false, None);
    s.(requests := s.requests + [if q.aborted then Answered(q, Disconnected) else q])
  }

  /** The turn of the next request: it starts its handler, or passes if it was cut off meanwhile. */
  function Executed(s: State): State
    requires s.next < |s.requests|
  {
    var i := s.next;
    var q := s.requests[i].(started := true);
    if q.aborted || q.peer in s.revoked then
      s.(requests := s.requests[i := Answered(q, Disconnected)], next := i + 1)
    else
      s.(requests := s.requests[i := q.(ran := true)], next := i + 1, running := Some(i), log := s.log + [Begins(i)])
  }

  function HandlerSettled(s: State): State
    requires s.running.Some? && s.running.value < |s.requests|
  {
    var i := s.running.value;
    s.(requests := s.requests[i := Answered(s.requests[i], Handled(i))], running := None, log := s.log + [Ends(i)])
  }

  function Aborted(s: State, i: nat): State
    requires i < |s.requests|
  {
    var q := s.requests[i].(aborted := true);
    s.(requests := s.requests[i := if q.started then q else Answered(q, Disconnected)])
  }

  predicate Enabled(s: State, e: Event) {
    match e
    case Execute => s.running.None? && s.next < |s.requests|
    case HandlerSettles => s.running.Some? && s.running.value < |s.requests|
    case Abort(i) => i < |s.requests| && s.requests[i].signalled
    case _ => true
  }

  function Step(s: State, e: Event): State {
    if !Enabled(s, e) then s
    else match e
      case Enqueue(peer, signalled, aborted) => Enqueued(s, peer, signalled, aborted)
      case Execute => Executed(s)
      case HandlerSettles => HandlerSettled(s)
      case Abort(i) => Aborted(s, i)
      case Revoke(peer) => s.(revoked := s.revoked + {peer})
  }

  function Initial(): State { State([], 0, None, {}, []) }

  function Run(es: seq<Event>): State {
    if es == [] then Initial() else Step(Run(es[..|es| - 1]), es[|es| - 1])
  }

  // --------------------------------------------------------------- invariant

  /** Each handler ends before the next begins, and they begin in arrival order. */
  predicate Serial(log: seq<Happening>) {
    && (forall k :: 0 <= k < |log| ==> (log[k].Begins? <==> k % 2 == 0))
    && (forall k :: 0 <= k < |log| && k % 2 == 1 ==> log[k].request == log[k - 1].request)
    && (forall j, k :: 0 <= j < k < |log| && log[j].Begins? && log[k].Begins? ==> log[j].request < log[k].request)
  }

  predicate RequestOk(q: Request, i: nat, next: nat, running: Option<nat>, revoked: set<string>) {
    && (q.started <==> i < next)
    && (q.ran ==> q.started)
    && (running == Some(i) ==> q.ran && q.response == None)
    && (q.ran && running != Some(i) ==> q.response == Some(Handled(i)))
    && (!q.ran && q.started ==> q.response == Some(Disconnected) && (q.aborted || q.peer in revoked))
    && (!q.started ==> q.response == if q.aborted then Some(Disconnected) else None)
    && (q.aborted ==> q.signalled)
  }

  predicate Inv(s: State) {
    && s.next <= |s.requests|
    && (s.running.Some? ==> s.running.value < s.next)
    && (forall i: nat :: i < |s.requests| ==> RequestOk(s.requests[i], i, s.next, s.running, s.revoked))
    && Serial(s.log)
    && (forall k :: 0 <= k < |s.log| ==> s.log[k].request < s.next)
    && (if |s.log| % 2 == 1 then s.running == Some(s.log[|s.log| - 1].request) else s.running == None)
    && (forall i: nat :: i < |s.requests| ==> (s.requests[i].ran <==> Begins(i) in s.log))
  }

  lemma EnqueueKeeps(s: State, peer: string, signalled: bool, aborted: bool)
    requires Inv(s)
    ensures Inv(Enqueued(s, peer, signalled, aborted))
  {
    var t := Enqueued(s, peer, signalled, aborted);
    var n := |s.requests|;
    forall i: nat | i < |t.requests|
      ensures RequestOk(t.requests[i], i, t.next, t.running, t.revoked) && (t.requests[i].ran <==> Begins(i) in t.log)
    {
      if i < n { assert t.requests[i] == s.requests[i]; }
    }
    hide Serial;
  }

  lemma ExecuteKeeps(s: State)
    requires Inv(s) && s.running.None? && s.next < |s.requests|
    ensures Inv(Executed(s))
  {
    BeginKeepsLog(s.log, s.next);
    hide Serial;
  }

  lemma SettleKeeps(s: State)
    requires Inv(s) && s.running.Some? && s.running.value < |s.requests|
    ensures Inv(HandlerSettled(s))
  {
    EndKeepsLog(s.log, s.running.value);
    hide Serial;
  }

  lemma AbortKeeps(s: State, i: nat)
    requires Inv(s) && i < |s.requests| && s.requests[i].signalled
    ensures Inv(Aborted(s, i))
  {
    hide Serial;
  }

  lemma StepKeepsInv(s: State, e: Event)
    requires Inv(s)
    ensures Inv(Step(s, e))
  {
    if Enabled(s, e) {
      match e
      case Enqueue(peer, signalled, aborted) => EnqueueKeeps(s, peer, signalled, aborted);
      case Execute => ExecuteKeeps(s);
      case HandlerSettles => SettleKeeps(s);
      case Abort(i) => AbortKeeps(s, i);
      case Revoke(_) =>
    }
    hide Serial, RequestOk, Enqueued, Executed, HandlerSettled, Aborted;
  }

  lemma BeginKeepsLog(log: seq<Happening>, i: nat)
    requires Serial(log) && |log| % 2 == 0 && forall k :: 0 <= k < |log| ==> log[k].request < i
    ensures Serial(log + [Begins(i)])
  { }

  lemma EndKeepsLog(log: seq<Happening>, i: nat)
    requires Serial(log) && |log| % 2 == 1 && log[|log| - 1].request == i
    ensures Serial(log + [Ends(i)])
  { }

  lemma {:induction false} RunKeepsInv(es: seq<Event>)
    ensures Inv(Run(es))
  {
    if es != [] {
      RunKeepsInv(es[..|es| - 1]);
      StepKeepsInv(Run(es[..|es| - 1]), es[|es| - 1]);
    }
  }

  // ---------------------------------------------------------------- theorems

  /** Handlers never overlap and begin in the order in which their requests arrived. */
  lemma HandlersAreSerial(es: seq<Event>)
    ensures Serial(Run(es).log)
  {
    RunKeepsInv(es);
  }

  lemma AnswersStay(s: State, e: Event, i: nat)
    requires Inv(s) && i < |s.requests|
    ensures var q, q' := s.requests[i], Step(s, e).requests[i];
            && i < |Step(s, e).requests|
            && (q.response.Some? ==> q'.response == q.response)
            && (q.ran ==> q'.ran)
            && (q.response == Some(Disconnected) ==> !q'.ran)
  {
    assert RequestOk(s.requests[i], i, s.next, s.running, s.revoked);
    hide Serial;
  }

  /** A request answered as disconnected had not run its handler and never will; the answer stays. */
  lemma {:induction false} DisconnectedNeverRuns(es: seq<Event>, k: nat, i: nat)
    requires k <= |es| && i < |Run(es[..k]).requests| && Run(es[..k]).requests[i].response == Some(Disconnected)
    ensures i < |Run(es).requests| && Run(es).requests[i].response == Some(Disconnected)
    ensures !Run(es).requests[i].ran && Begins(i) !in Run(es).log
  {
    RunKeepsInv(es);
    if k == |es| {
      assert es[..k] == es;
      assert RequestOk(Run(es).requests[i], i, Run(es).next, Run(es).running, Run(es).revoked);
    } else {
      var before := es[..|es| - 1];
      assert before[..k] == es[..k];
      DisconnectedNeverRuns(before, k, i);
      RunKeepsInv(before);
      AnswersStay(Run(before), es[|es| - 1], i);
      hide Step;
    }
  }

  /** A request whose handler began is answered by that handler alone, and only once it has ended. */
  lemma RunIsAnsweredByItsHandler(es: seq<Event>, i: nat)
    requires i < |Run(es).requests| && Begins(i) in Run(es).log
    ensures var s := Run(es);
            && s.requests[i].response == (if s.running == Some(i) then None else Some(Handled(i)))
            && (s.requests[i].response.Some? <==> Ends(i) in s.log)
  {
    RunKeepsInv(es);
    var s := Run(es);
    hide Run;
    assert RequestOk(s.requests[i], i, s.next, s.running, s.revoked);
    var k :| 0 <= k < |s.log| && s.log[k] == Begins(i);
    if s.running != Some(i) {
      assert k + 1 < |s.log|;
      assert s.log[k + 1] == Ends(i);
    } else {
      OpenHasNotEnded(s.log, i);
    }
  }

  lemma OpenHasNotEnded(log: seq<Happening>, i: nat)
    requires Serial(log) && |log| % 2 == 1 && log[|log| - 1].request == i
    ensures Ends(i) !in log
  {
    forall m | 0 <= m < |log| ensures log[m] != Ends(i) {
      if m % 2 == 1 { assert log[m - 1].request < log[|log| - 1].request; }
    }
  }

  /** Only an abort or a revoked peer keeps a request from its handler. */
  lemma OthersRun(es: seq<Event>, i: nat)
    requires var s := Run(es);
             && i < s.next && i < |s.requests| && !s.requests[i].aborted
             && s.requests[i].peer !in s.revoked
    ensures Begins(i) in Run(es).log
  {
    RunKeepsInv(es);
    assert RequestOk(Run(es).requests[i], i, Run(es).next, Run(es).running, Run(es).revoked);
    hide Run;
  }

  /** While nothing runs and every request had its turn, everyone has an answer. */
  lemma IdleMeansAnswered(es: seq<Event>, i: nat)
    requires Run(es).running == None && Run(es).next == |Run(es).requests| && i < |Run(es).requests|
    ensures Run(es).requests[i].response == Some(if Begins(i) in Run(es).log then Handled(i) else Disconnected)
  {
    RunKeepsInv(es);
    assert RequestOk(Run(es).requests[i], i, Run(es).next, Run(es).running, Run(es).revoked);
  }

  // ------------------------------------------------ what each event brings about

  /** What a turn does: it starts the handler of the first waiting request iff neither an abort nor a
      revocation came first, and otherwise answers that request as disconnected. */
  lemma TurnDecides(es: seq<Event>)
    requires var s := Run(es); s.running.None? && s.next < |s.requests|
    ensures var s, t := Run(es), Run(es + [Execute]); var i := s.next; var q := s.requests[i];
            && t.next == i + 1 && |t.requests| == |s.requests| && t.revoked == s.revoked
            && (forall k :: 0 <= k < |s.requests| && k != i ==> t.requests[k] == s.requests[k])
            && t.requests[i].peer == q.peer
            && if q.aborted || q.peer in s.revoked
               then t.running.None? && t.log == s.log && t.requests[i].response == Some(Disconnected)
               else t.running == Some(i) && t.log == s.log + [Begins(i)] && t.requests[i].response.None?
  {
    RunKeepsInv(es);
    assert (es + [Execute])[..|es|] == es;
    assert RequestOk(Run(es).requests[Run(es).next], Run(es).next, Run(es).next, None, Run(es).revoked);
    hide Run, Serial;
  }

  /** A settled handler answers its request and frees the queue. */
  lemma SettledHandlerAnswers(es: seq<Event>)
    requires Run(es).running.Some?
    ensures var s, t := Run(es), Run(es + [HandlerSettles]); var i := s.running.value;
            && i < |s.requests| && t.running.None? && t.next == s.next && t.log == s.log + [Ends(i)]
            && t.requests == s.requests[i := s.requests[i].(response := Some(Handled(i)))]
  {
    RunKeepsInv(es);
    assert (es + [HandlerSettles])[..|es|] == es;
    assert RequestOk(Run(es).requests[Run(es).running.value], Run(es).running.value, Run(es).next, Run(es).running,
      Run(es).revoked);
    hide Run, Serial;
  }

  /** An abort answers its request at once iff the request had no turn yet, and touches no other. */
  lemma AbortDecides(es: seq<Event>, i: nat)
    requires i < |Run(es).requests| && Run(es).requests[i].signalled
    ensures var s, t := Run(es), Run(es + [Abort(i)]);
            && t == s.(requests := t.requests) && |t.requests| == |s.requests| && t.requests[i].aborted
            && (forall k :: 0 <= k < |s.requests| && k != i ==> t.requests[k] == s.requests[k])
            && t.requests[i].response == if i >= s.next then Some(Disconnected) else s.requests[i].response
  {
    RunKeepsInv(es);
    assert (es + [Abort(i)])[..|es|] == es;
    assert RequestOk(Run(es).requests[i], i, Run(es).next, Run(es).running, Run(es).revoked);
    hide Run, Serial;
  }

  /** An arrival goes to the end, and is answered there and then iff it came with an aborted signal. */
  lemma ArrivalIsQueued(es: seq<Event>, peer: string, signalled: bool, aborted: bool)
    ensures var s, t := Run(es), Run(es + [Enqueue(peer, signalled, aborted)]); var n := |s.requests|;
            && |t.requests| == n + 1 && t.requests[..n] == s.requests && t == s.(requests := t.requests)
            && t.requests[n].peer == peer && t.requests[n].signalled == signalled
            && t.requests[n].aborted == (signalled && aborted)
            && t.requests[n].response == if signalled && aborted then Some(Disconnected) else None
  {
    assert (es + [Enqueue(peer, signalled, aborted)])[..|es|] == es;
    hide Run;
  }

  /** What the queue does next on its own: it lets the running handler end, and then takes the next turn. */
  function Onward(s: State): Event { if s.running.Some? then HandlerSettles else Execute }

  /** The queue once all requests had their turns and the last handler has ended. */
  function Finished(s: State): State
    requires s.next <= |s.requests| && (s.running.Some? ==> s.running.value < |s.requests|)
    decreases 2 * (|s.requests| - s.next) + if s.running.Some? then 1 else 0
  {
    if s.running.None? && s.next == |s.requests| then s else Finished(Step(s, Onward(s)))
  }

  /** If handlers end, everyone is answered: a request still waiting for its turn is answered by its
      handler iff neither an abort nor a revocation has cut it off. */
  lemma {:induction false} EveryoneIsAnswered(s: State, i: nat)
    requires Inv(s) && i < |s.requests|
    ensures var t := Finished(s);
            && |t.requests| == |s.requests| && t.requests[i].response.Some?
            && (s.next <= i ==>
                  t.requests[i].response.value ==
                    if s.requests[i].aborted || s.requests[i].peer in s.revoked then Disconnected else Handled(i))
            && (i < s.next ==>
                  t.requests[i].response ==
                    if s.running == Some(i) then Some(Handled(i)) else s.requests[i].response)
    decreases 2 * (|s.requests| - s.next) + if s.running.Some? then 1 else 0
  {
    hide Serial;
    assert RequestOk(s.requests[i], i, s.next, s.running, s.revoked);
    if s.running.Some? || s.next < |s.requests| {
      StepKeepsInv(s, Onward(s));
      EveryoneIsAnswered(Step(s, Onward(s)), i);
      hide Inv;
    }
  }

  // --------------------------------------------------------------- the queue

  class CoordinatorRequestQueue {
    var requests: seq<Request>
    var next: nat
    var running: Option<nat>
    var revoked: set<string>
    ghost var log: seq<Happening>

    ghost function View(): State
      reads this
    {
      State(requests, next, running, revoked, log)
    }

    constructor ()
      ensures View() == Initial() && Inv(View())
    {
      requests, next, running, revoked, log := [], 0, None, {}, [];
    }

    method EnqueueRequest(peer: string, signalled: bool, aborted: bool) returns (i: nat)
      requires Inv(View())
      modifies this
      ensures View() == Step(old(View()), Enqueue(peer, signalled, aborted)) && Inv(View())
      ensures i == old(|requests|) < |requests|
    {
      hide Inv;
      StepKeepsInv(View(), Enqueue(peer, signalled, aborted));
      var q := Request(peer, signalled, signalled && aborted, false, false, None);
      if signalled && aborted { q := q.(response := Some(Disconnected)); }
      requests := requests + [q];
      i := |requests| - 1;
    }

    /** The turn of the next request. */
    method ExecuteNext()
      requires Inv(View()) && running.None? && next < |requests|
      modifies this
      ensures View() == Step(old(View()), Execute) && Inv(View())
    {
      hide Inv;
      StepKeepsInv(View(), Execute);
      var i := next;
      next := next + 1;
      var q := requests[i].(started := true);
      if q.aborted || q.peer in revoked {
        requests := requests[i := Answered(q, Disconnected)];
        return;
      }
      requests := requests[i := q.(ran := true)];
      running, log := Some(i), log + [Begins(i)];
    }

    method OnHandlerSettled()
      requires Inv(View()) && running.Some?
      modifies this
      ensures View() == Step(old(View()), HandlerSettles) && Inv(View())
    {
      var i := running.value;
      StepKeepsInv(View(), HandlerSettles);
      requests := requests[i := Answered(requests[i], Handled(i))];
      running, log := None, log + [Ends(i)];
    }

    method OnAbort(i: nat)
      requires Inv(View()) && i < |requests| && requests[i].signalled
      modifies this
      ensures View() == Step(old(View()), Abort(i)) && Inv(View())
    {
      hide Inv;
      StepKeepsInv(View(), Abort(i));
      var q := requests[i].(aborted := true);
      if !q.started { q := Answered(q, Disconnected); }
      requests := requests[i := q];
    }

    method RevokePeer(peer: string)
      requires Inv(View())
      modifies this
      ensures View() == Step(old(View()), Revoke(peer)) && Inv(View())
    {
      revoked := revoked + {peer};
    }
  }
}
