/** The page's platform key-value store: requests share one storage grant, and a request refused
    before any I/O is repeated once on a new grant. One step per stretch between awaits; a request
    resumes some time after the promise it awaits has settled. */
module PlatformStore {
  import opened Prelude

  /** A bind and its grant; the position of the bind is the identity of both. */
  datatype Bind = Pending | Granted | Rejected

  datatype Failure = HandleClosed | BindFailed | CallFailed

  datatype Phase =
    | AwaitingGrant(bind: nat)
    | Calling(grant: nat)
    | AwaitingRebind(bind: nat)
    | CallingAgain(grant: nat)
    | Done(result: Result<(), Failure>)

  /** The answer to a call: success, or an error with what its message says. */
  datatype Answer = Value | Error(preIo: bool, stale: bool)

  /** `first` is the grant of the first call and `answer` what came back, `second` the bind awaited
      for another; `rpcs` counts the calls sent and `refused` those that were answered by a refusal
      from before any I/O. */
  datatype Request = Request(
    phase: Phase,
    first: Option<nat>,
    answer: Option<Answer>,
    second: Option<nat>,
    rpcs: nat,
    refused: nat)

  datatype State = State(
    binds: seq<Bind>,
    currentGrant: Option<nat>,
    grantPromise: Option<nat>,
    closed: bool,
    requests: seq<Request>)

  datatype Event =
    | Start
    | BindSettles(bind: nat, ok: bool)
    | Resume(request: nat)
    | CallSettles(request: nat, answer: Answer)
    | Close

  // ------------------------------------------------------------ transitions

  /** grant(): the state, and the bind that the caller awaits. */
  function Grant(s: State): (State, nat) {
    match s.grantPromise
    case Some(p) => (s, p)
    case None => (s.(binds := s.binds + [Pending], grantPromise := Some(|s.binds|)), |s.binds|)
  }

  function Invalidated(s: State, expected: nat): State {
    if s.currentGrant != Some(expected) then s else s.(currentGrant := None, grantPromise := None)
  }

  function Put(s: State, r: nat, q: Request): State
    requires r < |s.requests|
  {
    s.(requests := s.requests[r := q])
  }

  function Started(s: State): State {
    if s.closed then s.(requests := s.requests + [Request(Done(Err(HandleClosed)), None, None, None, 0, 0)])
    else
      var (t, p) := Grant(s);
      t.(requests := s.requests + [Request(AwaitingGrant(p), None, None, None, 0, 0)])
  }

  function BindSettled(s: State, p: nat, ok: bool): State
    requires p < |s.binds|
  {
    if ok then s.(binds := s.binds[p := Granted], currentGrant := Some(p))
    else s.(binds := s.binds[p := Rejected], grantPromise := None)
  }

  predicate Settled(s: State, p: nat) { p < |s.binds| && s.binds[p] != Pending }

  function Resumed(s: State, r: nat): State
    requires r < |s.requests|
  {
    var q := s.requests[r];
    match q.phase
    case AwaitingGrant(p) =>
      if !Settled(s, p) then s
      else if s.binds[p] == Rejected then Put(s, r, q.(phase := Done(Err(BindFailed))))
      else if s.closed then Put(s, r, q.(phase := Done(Err(HandleClosed))))
      else Put(s, r, q.(phase := Calling(p), first := Some(p), rpcs := q.rpcs + 1))
    case AwaitingRebind(p) =>
      if !Settled(s, p) then s
      else if s.binds[p] == Rejected then Put(s, r, q.(phase := Done(Err(BindFailed))))
      else if s.closed then Put(s, r, q.(phase := Done(Err(HandleClosed))))
      else Put(s, r, q.(phase := CallingAgain(p), rpcs := q.rpcs + 1))
    case _ => s
  }

  /** The request with the answer counted. */
  function Answered(q: Request, a: Answer): Request {
    q.(refused := q.refused + (if a.Error? && a.preIo then 1 else 0), answer := if q.phase.Calling? then Some(a)
      else q.answer)
  }

  function CallSettled(s: State, r: nat, a: Answer): State
    requires r < |s.requests|
  {
    var q := Answered(s.requests[r], a);
    match q.phase
    case Calling(g) =>
      if a.Value? then Put(s, r, q.(phase := Done(Ok(()))))
      else if s.closed || !a.preIo then
        Put(if a.stale then Invalidated(s, g) else s, r, q.(phase := Done(Err(CallFailed))))
      else
        var (t, p) := Grant(Invalidated(s, g));
        Put(t, r, q.(phase := AwaitingRebind(p), second := Some(p)))
    case CallingAgain(g) => Put(s, r, q.(phase := Done(if a.Value? then Ok(()) else Err(CallFailed))))
    case _ => s
  }

  predicate Enabled(s: State, e: Event) {
    match e
    case BindSettles(p, _) => p < |s.binds| && s.binds[p] == Pending
    case Resume(r) => r < |s.requests|
    case CallSettles(r, _) => r < |s.requests|
    case _ => true
  }

  function Step(s: State, e: Event): State {
    if !Enabled(s, e) then s
    else match e
      case Start => Started(s)
      case BindSettles(p, ok) => BindSettled(s, p, ok)
      case Resume(r) => Resumed(s, r)
      case CallSettles(r, a) => CallSettled(s, r, a)
      case Close => s.(closed := true)
  }

  function Initial(): State { State([], None, None, false, []) }

  function Run(es: seq<Event>): State {
    if es == [] then Initial() else Step(Run(es[..|es| - 1]), es[|es| - 1])
  }

  // --------------------------------------------------------------- invariant

  /** Only the latest bind can be pending or in use; a pending bind is the one that all share. */
  predicate GrantOk(s: State) {
    match s.grantPromise
    case None => s.currentGrant == None && forall p :: 0 <= p < |s.binds| ==> s.binds[p] != Pending
    case Some(p) =>
      && p == |s.binds| - 1
      && (forall k :: 0 <= k < p ==> s.binds[k] != Pending)
      && (s.binds[p] == Pending ==> s.currentGrant == None)
      && (s.binds[p] == Granted ==> s.currentGrant == Some(p))
      && s.binds[p] != Rejected
  }

  predicate RequestOk(q: Request, binds: seq<Bind>) {
    match q.phase
    case AwaitingGrant(p) => p < |binds| && q.first == q.second == None && q.answer == None && q.rpcs == 0
      && q.refused == 0
    case Calling(g) =>
      && g < |binds| && binds[g] == Granted && q.first == Some(g) && q.second == None && q.answer == None
      && q.rpcs == 1 && q.refused == 0
    case AwaitingRebind(p) => p < |binds| && q.second == Some(p) && Refused(q) && q.rpcs == 1 && q.refused == 1
    case CallingAgain(g) =>
      g < |binds| && binds[g] == Granted && q.second == Some(g) && Refused(q) && q.rpcs == 2 && q.refused == 1
    case Done(_) =>
      && q.rpcs <= 2 && q.rpcs <= q.refused + 1 && (q.rpcs > 0 ==> q.first.Some?)
      && (q.second.Some? ==> q.second.value < |binds| && Refused(q))
  }

  /** The first call was refused before any I/O, and the bind awaited since is a later one. */
  predicate Refused(q: Request) {
    && q.first.Some? && q.second.Some? && q.first.value < q.second.value
    && q.answer.Some? && q.answer.value.Error? && q.answer.value.preIo
  }

  /** The request called with this grant and was refused, or failed on a stale binding. */
  predicate UsedUp(q: Request, g: nat) {
    q.first == Some(g) && q.answer.Some? && q.answer.value.Error? && (q.answer.value.preIo || q.answer.value.stale)
  }

  ghost predicate Spent(requests: seq<Request>, g: nat) { exists q :: q in requests && UsedUp(q, g) }

  /** A grant no longer in use was discarded by a request that called with it. */
  ghost predicate SpentOk(s: State) {
    forall g: nat :: g < |s.binds| && s.binds[g] == Granted && s.currentGrant != Some(g) ==> Spent(s.requests, g)
  }

  ghost predicate Inv(s: State) {
    && GrantOk(s)
    && (forall q :: q in s.requests ==> RequestOk(q, s.binds))
    && SpentOk(s)
  }

  /** Request `r` moves on; used-up grants stay used up. */
  lemma PutKeeps(s: State, r: nat, q: Request)
    requires GrantOk(s) && r < |s.requests|
    requires forall x :: x in s.requests ==> RequestOk(x, s.binds)
    requires RequestOk(q, s.binds)
    requires q.first == s.requests[r].first || s.requests[r].first == None
    requires q.answer == s.requests[r].answer || s.requests[r].answer == None
    requires forall g: nat :: g < |s.binds| && s.binds[g] == Granted && s.currentGrant != Some(g) ==>
               Spent(s.requests, g) || UsedUp(q, g)
    ensures Inv(Put(s, r, q))
  {
    var after := s.requests[r := q];
    assert q == after[r];
    forall x | x in after ensures RequestOk(x, s.binds) {
      var k :| 0 <= k < |after| && after[k] == x;
      if k != r { assert s.requests[k] == x; }
    }
    forall g | Spent(s.requests, g) || UsedUp(q, g) ensures Spent(after, g) {
      if !UsedUp(q, g) {
        var x :| x in s.requests && UsedUp(x, g);
        var k :| 0 <= k < |s.requests| && s.requests[k] == x;
        assert k != r;
        assert after[k] == x;
      }
    }
  }

  lemma OlderBinds(s: State, t: State)
    requires |s.binds| <= |t.binds|
    requires forall k :: 0 <= k < |s.binds| ==> t.binds[k] == s.binds[k] || s.binds[k] == Pending
    ensures forall q :: RequestOk(q, s.binds) ==> RequestOk(q, t.binds)
  { }

  lemma GrantKeeps(s: State)
    requires GrantOk(s)
    ensures var (t, p) := Grant(s);
            && GrantOk(t) && t.currentGrant == s.currentGrant && t.requests == s.requests && t.closed == s.closed
            && p < |t.binds| && t.grantPromise == Some(p) && p == |t.binds| - 1
            && |s.binds| <= |t.binds|
            && (forall k :: 0 <= k < |s.binds| ==> t.binds[k] == s.binds[k])
            && (forall k :: |s.binds| <= k < |t.binds| ==> t.binds[k] == Pending)
  { }

  lemma StartKeeps(s: State)
    requires Inv(s)
    ensures Inv(Started(s))
  {
    GrantKeeps(s);
    var (g, p) := Grant(s);
    OlderBinds(s, g);
    var t := Started(s);
    hide GrantOk;
    forall x: nat | Spent(s.requests, x) ensures Spent(t.requests, x) {
      var q :| q in s.requests && UsedUp(q, x);
      assert q in t.requests;
    }
  }

  lemma BindKeeps(s: State, p: nat, ok: bool)
    requires Inv(s) && p < |s.binds| && s.binds[p] == Pending
    ensures Inv(BindSettled(s, p, ok))
  {
    OlderBinds(s, BindSettled(s, p, ok));
  }

  lemma ResumeKeeps(s: State, r: nat)
    requires Inv(s) && r < |s.requests|
    ensures Inv(Resumed(s, r))
  {
    var q := s.requests[r];
    assert RequestOk(q, s.binds);
    if q.phase.AwaitingGrant? && Settled(s, q.phase.bind) {
      var p := q.phase.bind;
      if s.binds[p] == Rejected { PutKeeps(s, r, q.(phase := Done(Err(BindFailed)))); }
      else if s.closed { PutKeeps(s, r, q.(phase := Done(Err(HandleClosed)))); }
      else { PutKeeps(s, r, q.(phase := Calling(p), first := Some(p), rpcs := q.rpcs + 1)); }
    } else if q.phase.AwaitingRebind? && Settled(s, q.phase.bind) {
      var p := q.phase.bind;
      if s.binds[p] == Rejected { PutKeeps(s, r, q.(phase := Done(Err(BindFailed)))); }
      else if s.closed { PutKeeps(s, r, q.(phase := Done(Err(HandleClosed)))); }
      else { PutKeeps(s, r, q.(phase := CallingAgain(p), rpcs := q.rpcs + 1)); }
    }
    hide Inv, Put;
  }

  lemma CallKeeps(s: State, r: nat, a: Answer)
    requires Inv(s) && r < |s.requests|
    ensures Inv(CallSettled(s, r, a))
  {
    var q := Answered(s.requests[r], a);
    assert RequestOk(s.requests[r], s.binds);
    if q.phase.Calling? {
      var g := q.phase.grant;
      if a.Value? { PutKeeps(s, r, q.(phase := Done(Ok(())))); }
      else if s.closed || !a.preIo {
        PutKeeps(if a.stale then Invalidated(s, g) else s, r, q.(phase := Done(Err(CallFailed))));
      } else {
        var i := Invalidated(s, g);
        GrantKeeps(i);
        var (t, p) := Grant(i);
        OlderBinds(s, t);
        assert p > g;
        PutKeeps(t, r, q.(phase := AwaitingRebind(p), second := Some(p)));
      }
    } else if q.phase.CallingAgain? {
      PutKeeps(s, r, q.(phase := Done(if a.Value? then Ok(()) else Err(CallFailed))));
    }
    hide Inv, Put, Invalidated, Grant;
  }

  lemma StepKeepsInv(s: State, e: Event)
    requires Inv(s)
    ensures Inv(Step(s, e))
  {
    if Enabled(s, e) {
      match e
      case Start => StartKeeps(s);
      case BindSettles(p, ok) => BindKeeps(s, p, ok);
      case Resume(r) => ResumeKeeps(s, r);
      case CallSettles(r, a) => CallKeeps(s, r, a);
      case Close =>
    }
    hide Started, BindSettled, Resumed, CallSettled, RequestOk, UsedUp;
  }

  lemma {:induction false} RunKeepsInv(es: seq<Event>)
    ensures Inv(Run(es))
  {
    if es != [] {
      RunKeepsInv(es[..|es| - 1]);
      StepKeepsInv(Run(es[..|es| - 1]), es[|es| - 1]);
    }
  }

  // ---------------------------------------------------------------- theorems

  /** One request sends at most two calls; all but one of them were refused before any I/O, so its
      physical effect happens at most once. */
  lemma AtMostOneEffect(es: seq<Event>, r: nat)
    requires r < |Run(es).requests|
    ensures var q := Run(es).requests[r]; q.rpcs <= 2 && q.rpcs <= q.refused + 1
  {
    RunKeepsInv(es);
    assert RequestOk(Run(es).requests[r], Run(es).binds);
  }

  /** The second call goes out on a newer grant than the first. */
  lemma RepeatsOnNewerGrant(es: seq<Event>, r: nat)
    requires r < |Run(es).requests| && Run(es).requests[r].phase.CallingAgain?
    ensures var q := Run(es).requests[r];
            && q.first.Some? && q.first.value < q.phase.grant < |Run(es).binds|
            && Run(es).binds[q.phase.grant] == Granted
  {
    RunKeepsInv(es);
    assert RequestOk(Run(es).requests[r], Run(es).binds);
  }

  /** A request refused before any I/O on the grant in use is repeated once: the grant is discarded, a
      bind is sent, and with its grant the second call goes out and decides the result. */
  lemma RefusedIsRepeated(es: seq<Event>, r: nat, stale: bool, second: Answer)
    requires var s := Run(es);
             && r < |s.requests| && !s.closed && s.currentGrant.Some?
             && s.requests[r].phase == Calling(s.currentGrant.value)
    ensures var s := Run(es);
            var t := Step(s, CallSettles(r, Error(true, stale)));
            var p := |s.binds|;
            && t.requests[r].phase == AwaitingRebind(p) && t.currentGrant == None && t.binds == s.binds + [Pending]
            && var u := Step(Step(t, BindSettles(p, true)), Resume(r));
               && u.currentGrant == Some(p) && u.requests[r].phase == CallingAgain(p) && u.requests[r].rpcs == 2
               && Step(u, CallSettles(r, second)).requests[r].phase ==
                 Done(if second.Value? then Ok(()) else Err(CallFailed))
               && Step(Step(t, BindSettles(p, false)), Resume(r)).requests[r].phase == Done(Err(BindFailed))
  {
    RunKeepsInv(es);
    assert RequestOk(Run(es).requests[r], Run(es).binds);
    hide Run;
  }

  /** A refusal arriving after the grant was replaced keeps the newer grant, or joins the bind under way. */
  lemma LateFailureJoins(es: seq<Event>, r: nat, a: Answer)
    requires var s := Run(es);
             r < |s.requests| && s.requests[r].phase.Calling? && s.grantPromise.Some?
               && s.grantPromise != s.requests[r].first
    ensures var s, t := Run(es), Run(es + [CallSettles(r, a)]);
            && t.binds == s.binds && t.currentGrant == s.currentGrant && t.grantPromise == s.grantPromise
            && (a.Error? && a.preIo && !s.closed ==> t.requests[r].phase == AwaitingRebind(s.grantPromise.value))
  {
    RunKeepsInv(es);
    assert (es + [CallSettles(r, a)])[..|es|] == es;
    assert RequestOk(Run(es).requests[r], Run(es).binds);
    hide Run;
  }

  /** At most one bind is under way, it is the shared one, and it leaves no grant in use. */
  lemma OneBindAtATime(es: seq<Event>, p: nat)
    requires p < |Run(es).binds| && Run(es).binds[p] == Pending
    ensures Run(es).grantPromise == Some(p) && Run(es).currentGrant == None && p == |Run(es).binds| - 1
  {
    RunKeepsInv(es);
  }

  /** Another bind is sent only after the last one was rejected, or its grant refused or gone stale for
      a request that called with it. */
  lemma GrantsDieByUse(es: seq<Event>, p: nat)
    requires p + 1 < |Run(es).binds|
    ensures Run(es).binds[p] == Rejected || Spent(Run(es).requests, p)
  {
    RunKeepsInv(es);
  }

  /** Two requests that were refused on the same grant share one rebind, unless the rebind of one has
      been rejected, or its grant been refused or gone stale as well, before the other asked. */
  lemma RefusalsShareRebind(es: seq<Event>, q: nat, r: nat)
    requires var s := Run(es);
             && q < |s.requests| && r < |s.requests|
             && s.requests[q].first == s.requests[r].first
             && s.requests[q].second.Some? && s.requests[r].second.Some?
    ensures var s := Run(es);
            var a, b := s.requests[q].second.value, s.requests[r].second.value;
            var earlier := if a < b then a else b;
            a == b || (earlier < |s.binds| && (s.binds[earlier] == Rejected || Spent(s.requests, earlier)))
  {
    RunKeepsInv(es);
    var s := Run(es);
    assert RequestOk(s.requests[r], s.binds) && RequestOk(s.requests[q], s.binds);
    var a, b := s.requests[q].second.value, s.requests[r].second.value;
    if a < b { GrantsDieByUse(es, a); } else if b < a { GrantsDieByUse(es, b); }
    hide Run;
  }

  // ------------------------------------------------- the result of a request

  /** What the answer to a first call does: a value ends the request; an error that was not refused before
      any I/O, or that meets a closed store, fails it; any other is a refusal and awaits a bind. The
      grant in use goes iff this call used it and was refused or failed on a stale binding. */
  lemma FirstAnswerDecides(es: seq<Event>, r: nat, a: Answer)
    requires r < |Run(es).requests| && Run(es).requests[r].phase.Calling?
    ensures var s, t := Run(es), Run(es + [CallSettles(r, a)]);
            var g, after := s.requests[r].phase.grant, t.requests[r].phase;
            var again := a.Error? && a.preIo && !s.closed;
            var discards := s.currentGrant == Some(g) && a.Error? && (again || a.stale);
            && (after == Done(Ok(())) <==> a == Value)
            && (after == Done(Err(CallFailed)) <==> a.Error? && !again)
            && (after.AwaitingRebind? <==> again)
            && t.currentGrant == (if discards then None else s.currentGrant)
            && (if !again then t.binds == s.binds && t.grantPromise == if discards then None else s.grantPromise
                else if s.grantPromise.Some? && !discards then
                  t.binds == s.binds && t.grantPromise == s.grantPromise && after.bind == s.grantPromise.value
                else
                  t.binds == s.binds + [Pending] && t.grantPromise == Some(|s.binds|) && after.bind == |s.binds|)
  {
    RunKeepsInv(es);
    assert (es + [CallSettles(r, a)])[..|es|] == es;
    hide Run;
  }

  /** The way in which one event ends request `r`. */
  predicate EndsWith(s: State, e: Event, r: nat, result: Result<(), Failure>) {
    match e
    case Start => r == |s.requests| && s.closed && result == Err(HandleClosed)
    case Resume(i) =>
      && i == r < |s.requests|
      && (s.requests[r].phase.AwaitingGrant? || s.requests[r].phase.AwaitingRebind?)
      && var p := s.requests[r].phase.bind;
         && p < |s.binds|
         && ((s.binds[p] == Rejected && result == Err(BindFailed))
             || (s.binds[p] == Granted && s.closed && result == Err(HandleClosed)))
    case CallSettles(i, a) =>
      && i == r < |s.requests|
      && (match s.requests[r].phase
          case Calling(_) =>
            || (a == Value && result == Ok(()))
            || (a.Error? && (s.closed || !a.preIo) && result == Err(CallFailed))
          case CallingAgain(_) => result == if a == Value then Ok(()) else Err(CallFailed)
          case _ => false)
    case _ => false
  }

  lemma ResumeEnds(s: State, i: nat, r: nat, result: Result<(), Failure>)
    requires i < |s.requests| && r < |s.requests|
    ensures var t := Resumed(s, i);
            |t.requests| == |s.requests|
            && (t.requests[r].phase == Done(result) <==>
                s.requests[r].phase == Done(result) || EndsWith(s, Resume(i), r, result))
  { }

  lemma CallEnds(s: State, i: nat, a: Answer, r: nat, result: Result<(), Failure>)
    requires i < |s.requests| && r < |s.requests|
    ensures var t := CallSettled(s, i, a);
            |t.requests| == |s.requests|
            && (t.requests[r].phase == Done(result) <==>
                s.requests[r].phase == Done(result) || EndsWith(s, CallSettles(i, a), r, result))
  { }

  lemma StepEnds(s: State, e: Event, r: nat, result: Result<(), Failure>)
    requires Inv(s) && r < |Step(s, e).requests|
    ensures Step(s, e).requests[r].phase == Done(result) <==>
            (r < |s.requests| && s.requests[r].phase == Done(result)) || EndsWith(s, e, r, result)
  {
    if !Enabled(s, e) { return; }
    match e
    case Start =>
    case BindSettles(_, _) =>
    case Resume(i) => ResumeEnds(s, i, r, result);
    case CallSettles(i, a) => CallEnds(s, i, a, r, result);
    case Close =>
    hide RequestOk, Resumed, CallSettled, GrantOk;
  }

  ghost predicate EndedWith(es: seq<Event>, r: nat, result: Result<(), Failure>) {
    exists k: nat :: k < |es| && EndsWith(Run(es[..k]), es[k], r, result)
  }

  lemma EndedSplits(es: seq<Event>, r: nat, result: Result<(), Failure>)
    requires es != []
    ensures var n := |es| - 1;
            EndedWith(es, r, result) <==>
              EndedWith(es[..n], r, result) || EndsWith(Run(es[..n]), es[n], r, result)
  {
    hide Run, EndsWith;
    var n := |es| - 1;
    var before := es[..n];
    forall k: nat | k < n ensures before[..k] == es[..k] && before[k] == es[k] { }
    if EndedWith(before, r, result) {
      var k: nat :| k < n && EndsWith(Run(before[..k]), before[k], r, result);
      assert EndsWith(Run(es[..k]), es[k], r, result);
    }
    if EndedWith(es, r, result) && !EndsWith(Run(before), es[n], r, result) {
      var k: nat :| k < |es| && EndsWith(Run(es[..k]), es[k], r, result);
      assert EndsWith(Run(before[..k]), before[k], r, result);
    }
  }

  /** The exact result of a request: a value iff its first or second call was answered by one, a failed
      call iff the first answer was final or the second no value, a failed bind iff it resumed from a
      rejected one, and a closed handle iff the store was closed when it began or came to call. */
  lemma {:induction false} ResultIff(es: seq<Event>, r: nat, result: Result<(), Failure>)
    requires r < |Run(es).requests|
    ensures Run(es).requests[r].phase == Done(result) <==> EndedWith(es, r, result)
  {
    if es != [] {
      var before, e := es[..|es| - 1], es[|es| - 1];
      RunKeepsInv(before);
      StepEnds(Run(before), e, r, result);
      EndedSplits(es, r, result);
      if r < |Run(before).requests| { ResultIff(before, r, result); } else { NotEndedYet(before, r, result); }
      hide Inv, Step, EndsWith, EndedWith;
    }
  }

  lemma {:induction false} NotEndedYet(es: seq<Event>, r: nat, result: Result<(), Failure>)
    requires r >= |Run(es).requests|
    ensures !EndedWith(es, r, result)
  {
    forall k: nat | k < |es| ensures !EndsWith(Run(es[..k]), es[k], r, result) {
      RequestsGrow(es, k);
      RequestsGrow(es, k + 1);
      assert es[..k + 1][..k] == es[..k];
    }
  }

  lemma {:induction false} RequestsGrow(es: seq<Event>, k: nat)
    requires k <= |es|
    ensures |Run(es[..k]).requests| <= |Run(es).requests|
  {
    if k == |es| {
      assert es[..k] == es;
    } else {
      var before := es[..|es| - 1];
      assert before[..k] == es[..k];
      RequestsGrow(before, k);
    }
  }

  /** A request of an open store waits for the bind that is under way or done, and sends one iff there is none. */
  lemma StartAwaits(es: seq<Event>)
    requires !Run(es).closed
    ensures var s, t := Run(es), Run(es + [Start]);
            && |t.requests| == |s.requests| + 1 && t.requests[..|s.requests|] == s.requests
            && |t.binds| > 0 && t.requests[|s.requests|].phase == AwaitingGrant(|t.binds| - 1)
            && t.grantPromise == Some(|t.binds| - 1)
            && t.binds == if s.grantPromise.Some? then s.binds else s.binds + [Pending]
  {
    RunKeepsInv(es);
    assert (es + [Start])[..|es|] == es;
    hide Run;
  }

  /** A request that is left alone goes through: its bind granted, it calls, and a value is its result. */
  lemma GrantedCallSucceeds(es: seq<Event>, r: nat)
    requires var s := Run(es);
             && r < |s.requests| && !s.closed && s.requests[r].phase.AwaitingGrant?
             && s.requests[r].phase.bind < |s.binds| && s.binds[s.requests[r].phase.bind] == Granted
    ensures var s := Run(es);
            && Step(s, Resume(r)).requests[r].phase == Calling(s.requests[r].phase.bind)
            && Step(Step(s, Resume(r)), CallSettles(r, Value)).requests[r].phase == Done(Ok(()))
  {
    hide Run;
  }

  // --------------------------------------------------------------- the store

  /** The closure variables of the store. */
  class PlatformStore {
    var binds: seq<Bind>
    var currentGrant: Option<nat>
    var grantPromise: Option<nat>
    var closed: bool
    var requests: seq<Request>

    ghost function View(): State
      reads this
    {
      State(binds, currentGrant, grantPromise, closed, requests)
    }

    constructor ()
      ensures View() == Initial() && Inv(View())
    {
      binds, currentGrant, grantPromise, closed, requests := [], None, None, false, [];
    }

    method RequestGrant() returns (bind: nat)
      modifies this
      ensures (View(), bind) == Grant(old(View()))
    {
      if grantPromise.None? {
        grantPromise := Some(|binds|);
        binds := binds + [Pending];
      }
      bind := grantPromise.value;
    }

    method InvalidateGrant(expected: nat)
      modifies this
      ensures View() == Invalidated(old(View()), expected)
    {
      if currentGrant != Some(expected) { return; }
      currentGrant := None;
      grantPromise := None;
    }

    method StartRequest()
      requires Inv(View())
      modifies this
      ensures View() == Step(old(View()), Start) && Inv(View())
    {
      hide Inv;
      StepKeepsInv(View(), Start);
      if closed {
        requests := requests + [Request(Done(Err(HandleClosed)), None, None, None, 0, 0)];
        return;
      }
      var bind := RequestGrant();
      requests := requests + [Request(AwaitingGrant(bind), None, None, None, 0, 0)];
    }

    /** The bind RPC answers; a rejected bind is no longer offered to later requests. */
    method OnBind(bind: nat, ok: bool)
      requires Inv(View()) && bind < |binds| && binds[bind] == Pending
      modifies this
      ensures View() == Step(old(View()), BindSettles(bind, ok)) && Inv(View())
    {
      hide Inv;
      StepKeepsInv(View(), BindSettles(bind, ok));
      if ok {
        binds := binds[bind := Granted];
        currentGrant := Some(bind);
      } else {
        binds := binds[bind := Rejected];
        grantPromise := None;
      }
    }

    /** A call of request `r` answers. */
    method OnAnswer(r: nat, answer: Answer)
      requires Inv(View()) && r < |requests|
      modifies this
      ensures View() == Step(old(View()), CallSettles(r, answer)) && Inv(View())
    {
      hide Inv;
      StepKeepsInv(View(), CallSettles(r, answer));
      var q := Answered(requests[r], answer);
      if q.phase.CallingAgain? {
        requests := requests[r := q.(phase := Done(if answer.Value? then Ok(()) else Err(CallFailed)))];
      } else if q.phase.Calling? {
        var bound := q.phase.grant;
        if answer.Value? {
          requests := requests[r := q.(phase := Done(Ok(())))];
          return;
        }
        if closed || !answer.preIo {
          if answer.stale { InvalidateGrant(bound); }
          requests := requests[r := q.(phase := Done(Err(CallFailed)))];
          return;
        }
        InvalidateGrant(bound);
        var rebound := RequestGrant();
        requests := requests[r := q.(phase := AwaitingRebind(rebound), second := Some(rebound))];
      }
    }

    /** Request `r` resumes from the bind that it awaits. */
    method OnResume(r: nat)
      requires Inv(View()) && r < |requests|
      modifies this
      ensures View() == Step(old(View()), Resume(r)) && Inv(View())
    {
      hide Inv;
      StepKeepsInv(View(), Resume(r));
      var q := requests[r];
      if q.phase.AwaitingGrant? || q.phase.AwaitingRebind? {
        var bind := q.phase.bind;
        if bind >= |binds| || binds[bind] == Pending { return; }
        if binds[bind] == Rejected { q := q.(phase := Done(Err(BindFailed))); }
        else if closed { q := q.(phase := Done(Err(HandleClosed))); }
        else if q.phase.AwaitingGrant? { q := q.(phase := Calling(bind), first := Some(bind), rpcs := q.rpcs + 1); }
        else { q := q.(phase := CallingAgain(bind), rpcs := q.rpcs + 1); }
        requests := requests[r := q];
      }
    }

    method CloseStore()
      requires Inv(View())
      modifies this
      ensures View() == Step(old(View()), Close) && Inv(View())
    {
      closed := true;
    }
  }
}
