/** What the invariant means over whole runs: one elected owner, growing handoffs and
    generations, exact-match closes, and opens that stay dead once overtaken. */
module PeerTheorems {
  import opened Prelude
  import opened PeerSessions
  import opened PeerInvariant

  lemma {:induction false} RunKeepsInv(s: State, es: seq<Event>)
    requires Inv(s)
    ensures Inv(Run(s, es))
  {
    if es != [] {
      RunKeepsInv(s, es[..|es| - 1]);
      StepKeepsInv(Run(s, es[..|es| - 1]), es[|es| - 1]);
    }
  }

  /** In every reachable state storage I/O belongs to the open peer with the greatest
      commit order, under that peer's current binding, and to nobody iff no session is open. */
  lemma OwnerIsNewestOpenPeer(epoch: string, es: seq<Event>, k: nat)
    requires k < |Run(Initial(epoch), es).peers|
    ensures var s := Run(Initial(epoch), es);
            && (s.owner.None? <==> forall m: nat :: m < |s.peers| ==> !s.peers[m].sessionOpen)
            && (s.owner.Some? && s.owner.value.peerId == s.peers[k].peerId && Registered(s.peers, s.registry, k) <==>
                  s.peers[k].sessionOpen && forall m: nat :: m < |s.peers| && s.peers[m].sessionOpen ==>
                    OrderOf(s.peers[m]) <= OrderOf(s.peers[k]))
            && (s.owner.Some? && s.owner.value.peerId == s.peers[k].peerId && Registered(s.peers, s.registry, k) ==>
                  s.peers[k].binding == Some(s.owner.value.binding))
            && Coincide(s.peers[k])
            && (s.peers[k].sessionOpen ==> Registered(s.peers, s.registry, k) && s.peers[k].scopeActive)
  {
    RunKeepsInv(Initial(epoch), es);
    hide CallsOk, TurnsOk, QueueOk, OpeningOk, Run;
  }

  /** Why a peer must come under an id of its own: a configuration that reuses a registered id keeps
      the election exactly if that id is not the owner's. */
  lemma ReusedIdKeepsElectionIff(s: State, id: string)
    requires Inv(s) && id in s.registry
    ensures var t := Configured(s, id);
            OwnerElected(t.peers, t.registry, t.owner, t.handoff) <==> !(s.owner.Some? && s.owner.value.peerId == id)
  {
    var t := Configured(s, id);
    assert t.peers[..|s.peers|] == s.peers;
    hide CallsOk, TurnsOk, QueueOk, OpeningOk, ScopesOk;
    if s.owner.None? { assert forall k: nat :: k < |s.peers| ==> t.peers[k] == s.peers[k]; }
    else if s.owner.Some? && s.owner.value.peerId != id {
      var w := s.registry[s.owner.value.peerId];
      assert t.registry[s.owner.value.peerId] == w && t.peers[w] == s.peers[w];
      forall k: nat | k < |t.peers| && t.peers[k].sessionOpen && k != w
        ensures OrderOf(t.peers[k]) < OrderOf(t.peers[w])
      {
        assert t.peers[k] == s.peers[k];
      }
    }
  }

  /** Otherwise the revocation of the overwritten peer finds another peer registered and returns at
      once: the owner keeps the orphan's binding. */
  lemma ReusedIdOrphansOwner(s: State, k: nat)
    requires Inv(s) && s.owner.Some? && s.registry[s.owner.value.peerId] == k
    ensures k < |s.peers| && s.peers[k].binding == Some(s.owner.value.binding)
    ensures var t := ScopeRevoked(Configured(s, s.owner.value.peerId), k);
            t.owner == s.owner && t.peers[t.registry[s.owner.value.peerId]].binding == None
  {
    hide CallsOk, TurnsOk, QueueOk, OpeningOk, ScopesOk, PeersOk;
  }

  /** The handoff revisions announced along a run, one for each new owner. */
  ghost function HandoffLog(s: State, es: seq<Event>): seq<nat> {
    if es == [] then []
    else
      var before := Run(s, es[..|es| - 1]);
      var after := Step(before, es[|es| - 1]);
      HandoffLog(s, es[..|es| - 1])
        + (if after.owner.Some? && after.owner != before.owner then [after.owner.value.commitOrder] else [])
  }

  /** The handoff revision rises with every change to another owner, and that owner carries it. */
  predicate HandsOver(s: State, t: State) {
    s.handoff <= t.handoff && (t.owner.Some? && t.owner != s.owner ==>
      s.handoff < t.handoff == t.owner.value.commitOrder)
  }

  lemma FenceHandsOver(s: State, sid: nat, physical: bool, b: Option<Binding>)
    requires sid < |s.peers|
    ensures HandsOver(s, Fence(s, sid, physical, b).0)
  {
  }

  lemma StepHandsOver(s: State, e: Event)
    requires Inv(s)
    ensures HandsOver(s, Step(s, e))
  {
    hide Inv, Fence, HandsOver;
    match e
    case RevokeScope(sid) => RevokeHandsOver(s, sid);
    case CallClose(id, b) => if Enabled(s, e) { FenceHandsOver(s, s.registry[id], false, Some(b)); } else {
      KeptHandsOver(s, s);
    }
    case StartOperation(i) => OperationHandsOver(s, i);
    case FinishInitialization(i, initialized, exposed) => FinishHandsOver(s, i, initialized, exposed);
    case _ => KeptHandsOver(s, Step(s, e));
  }

  lemma KeptHandsOver(s: State, t: State)
    requires t.owner == s.owner && t.handoff == s.handoff
    ensures HandsOver(s, t)
  { }

  lemma RevokeHandsOver(s: State, sid: nat)
    ensures HandsOver(s, Step(s, RevokeScope(sid)))
  {
    hide Fence;
    if Enabled(s, RevokeScope(sid)) {
      FenceHandsOver(s.(peers := s.peers[sid := s.peers[sid].(scopeActive := false)]), sid, true, None);
    }
  }

  lemma OperationHandsOver(s: State, i: nat)
    ensures HandsOver(s, Step(s, StartOperation(i)))
  {
    hide Fence;
    if Enabled(s, StartOperation(i)) { FenceHandsOver(s, s.calls[i].peer, false, s.peers[s.calls[i].peer].binding); }
  }

  lemma FinishHandsOver(s: State, i: nat, initialized: bool, exposed: bool)
    ensures HandsOver(s, Step(s, FinishInitialization(i, initialized, exposed)))
  {
  }

  /** Successive owners are announced with strictly increasing handoff revisions. */
  lemma {:induction false} HandoffsIncrease(s: State, es: seq<Event>)
    requires Inv(s)
    ensures forall a: nat, b: nat :: a < b < |HandoffLog(s, es)| ==> HandoffLog(s, es)[a] < HandoffLog(s, es)[b]
    ensures forall a: nat :: a < |HandoffLog(s, es)| ==> HandoffLog(s, es)[a] <= Run(s, es).handoff
  {
    if es != [] {
      var es' := es[..|es| - 1];
      HandoffsIncrease(s, es');
      RunKeepsInv(s, es');
      StepHandsOver(Run(s, es'), es[|es| - 1]);
      hide Inv, Step;
    }
  }

  // ------------------------------------------------------- fencing over runs

  /** The binding that a step commits on a peer, if it commits one. */
  ghost function Committed(s: State, e: Event, sid: nat): Option<Binding> {
    if e.FinishInitialization? && Enabled(s, e) && e.initialized && e.exposed
       && s.calls[e.call].peer == sid && Fresh(s, s.calls[e.call])
    then s.calls[e.call].attempt else None
  }

  ghost function CommitLog(s: State, es: seq<Event>, sid: nat): seq<Binding> {
    if es == [] then []
    else
      var c := Committed(Run(s, es[..|es| - 1]), es[|es| - 1], sid);
      CommitLog(s, es[..|es| - 1], sid) + (if c.Some? then [c.value] else [])
  }

  /** What the log of a peer says about its present: generations only grow, a pending
      attempt is newer than every commit, and an open session is the last commit. */
  ghost predicate LogOk(s: State, log: seq<Binding>, sid: nat) {
    && (forall a: nat, b: nat :: a < b < |log| ==> log[a].peerGeneration < log[b].peerGeneration)
    && (log != [] ==> sid < |s.peers| && log[|log| - 1].peerGeneration <= s.peers[sid].generation)
    && (forall i: nat :: i < |s.calls| && InGlobalQueue(s.calls[i]) && s.calls[i].peer == sid && log != [] ==>
          s.calls[i].attempt.Some? && log[|log| - 1].peerGeneration < s.calls[i].attempt.value.peerGeneration)
    && (sid < |s.peers| && s.peers[sid].sessionOpen ==> log != [] && s.peers[sid].binding == Some(log[|log| - 1]))
  }

  /** How one step may change peers and calls, whatever the event. */
  ghost predicate PeersMove(s: State, t: State, e: Event) {
    && |s.peers| <= |t.peers|
    && (forall k: nat :: k < |s.peers| ==>
          s.peers[k].generation <= t.peers[k].generation
            && (s.peers[k].status == Revoked ==> t.peers[k].status == Revoked))
    && (forall k: nat :: k < |t.peers| && t.peers[k].sessionOpen ==>
          || (k < |s.peers| && s.peers[k].sessionOpen && s.peers[k].binding == t.peers[k].binding)
          || (t.peers[k].binding.Some? && Committed(s, e, k) == t.peers[k].binding))
  }

  /** The call an event acts on. */
  function Target(e: Event): Option<nat> {
    match e
    case Abort(i) => Some(i)
    case StartOperation(i) => Some(i)
    case ResumeAfterDrain(i) => Some(i)
    case StartInitialization(i) => Some(i)
    case FinishInitialization(i, _, _) => Some(i)
    case _ => None
  }

  ghost predicate CallsMove(s: State, t: State, e: Event) {
    && |s.calls| <= |t.calls|
    && (forall i: nat :: i < |s.calls| ==>
      s.calls[i].peer == t.calls[i].peer && (s.calls[i].aborted ==> t.calls[i].aborted))
    && (forall i: nat :: i < |s.calls| && Target(e) != Some(i) ==> t.calls[i] == s.calls[i])
    && (forall i: nat :: i < |t.calls| && InGlobalQueue(t.calls[i]) ==>
          || (i < |s.calls| && InGlobalQueue(s.calls[i]) && s.calls[i].attempt == t.calls[i].attempt)
          || (t.calls[i].attempt.Some? && t.calls[i].peer < |s.peers|
              && s.peers[t.calls[i].peer].generation < t.calls[i].attempt.value.peerGeneration))
  }

  lemma FinishMoves(s: State, e: Event)
    requires Inv(s) && e.FinishInitialization? && Enabled(s, e)
    ensures PeersMove(s, Step(s, e), e) && CallsMove(s, Step(s, e), e)
  {
    hide ScopesOk, OwnerElected, TurnsOk, QueueOk, OpeningOk;
    var i := e.call;
    var t := Step(s, e);
    RollbackNeverFires(s, i);
    if e.initialized && Fresh(s, s.calls[i]) && e.exposed {
      assert Committed(s, e, s.calls[i].peer) == s.calls[i].attempt;
    }
  }

  lemma FenceMoves(s: State, sid: nat, physical: bool, b: Option<Binding>, e: Event)
    requires sid < |s.peers|
    ensures PeersMove(s, Fence(s, sid, physical, b).0, e) && CallsMove(s, Fence(s, sid, physical, b).0, e)
  {
    FenceShape(s, sid, physical, b);
    hide Fence;
  }

  lemma RevokeMoves(s: State, sid: nat, e: Event)
    requires Inv(s) && sid < |s.peers|
    ensures PeersMove(s, ScopeRevoked(s, sid), e) && CallsMove(s, ScopeRevoked(s, sid), e)
  {
    hide Inv;
    FenceShape(s.(peers := s.peers[sid := s.peers[sid].(scopeActive := false)]), sid, true, None);
    hide Fence;
  }

  lemma ClaimMoves(s: State, i: nat, e: Event)
    requires Inv(s) && i < |s.calls| && !InGlobalQueue(s.calls[i]) && Target(e) == Some(i)
    requires var p := s.peers[s.calls[i].peer];
             && p.generation == s.calls[i].expected && p.status != Revoked
             && !p.sessionOpen
    ensures PeersMove(s, Claim(s, i), e) && CallsMove(s, Claim(s, i), e)
  {
  }

  lemma CallMoves(s: State, t: State, i: nat, e: Event)
    requires i < |s.calls| == |t.calls| && t.peers == s.peers && t.calls == s.calls[i := t.calls[i]]
        && Target(e) == Some(i)
    requires t.calls[i].peer == s.calls[i].peer && (s.calls[i].aborted ==> t.calls[i].aborted)
    requires InGlobalQueue(t.calls[i]) ==> InGlobalQueue(s.calls[i]) && t.calls[i].attempt == s.calls[i].attempt
    ensures PeersMove(s, t, e) && CallsMove(s, t, e)
  {
  }

  lemma OperationMoves(s: State, i: nat, e: Event)
    requires Inv(s) && Enabled(s, StartOperation(i)) && Target(e) == Some(i)
    ensures PeersMove(s, OperationStarted(s, i), e) && CallsMove(s, OperationStarted(s, i), e)
  {
    var c := s.calls[i];
    var p := s.peers[c.peer];
    assert CallOk(s.peers, c);
    if p.sessionOpen && p.status == Open && p.binding.Some? && p.binding.value.leaseId == c.leaseId {
      CallMoves(s, Settle(s, i, AlreadyOpen), i, e);
    } else if p.sessionOpen {
      FenceMoves(s, c.peer, false, p.binding, e);
      FenceShape(s, c.peer, false, p.binding);
      DrainingMoves(s, OperationStarted(s, i), Fence(s, c.peer, false, p.binding).0, i, e);
    } else if p.generation != c.expected {
      CallMoves(s, Settle(s, i, Rejected), i, e);
    } else {
      ClaimMoves(s, i, e);
    }
  }

  lemma DrainingMoves(s: State, t: State, f: State, i: nat, e: Event)
    requires PeersMove(s, f, e) && t.peers == f.peers && f.calls == s.calls
    requires i < |s.calls| == |t.calls| && t.calls == s.calls[i := t.calls[i]] && t.calls[i].phase.Draining?
        && Target(e) == Some(i)
    requires t.calls[i].peer == s.calls[i].peer && t.calls[i].aborted == s.calls[i].aborted
    ensures PeersMove(s, t, e) && CallsMove(s, t, e)
  {
  }

  lemma ResumeMoves(s: State, i: nat, e: Event)
    requires Inv(s) && Enabled(s, ResumeAfterDrain(i)) && Target(e) == Some(i)
    ensures PeersMove(s, DrainResumed(s, i), e) && CallsMove(s, DrainResumed(s, i), e)
  {
    var p := s.peers[s.calls[i].peer];
    assert CallOk(s.peers, s.calls[i]);
    if p.generation != s.calls[i].expected || p.status == Revoked {
      CallMoves(s, Settle(s, i, Rejected), i, e);
    } else {
      ClaimMoves(s, i, e);
    }
  }

  lemma GrowthMoves(s: State, t: State, e: Event)
    requires s.peers <= t.peers && s.calls <= t.calls
    requires forall k: nat :: |s.peers| <= k < |t.peers| ==> !t.peers[k].sessionOpen
    requires forall i: nat :: |s.calls| <= i < |t.calls| ==> !InGlobalQueue(t.calls[i])
    ensures PeersMove(s, t, e) && CallsMove(s, t, e)
  {
  }

  lemma DrainSettledMoves(s: State, sid: nat, d: nat, e: Event)
    requires sid < |s.peers|
    ensures PeersMove(s, DrainSettled(s, sid, d), e) && CallsMove(s, DrainSettled(s, sid, d), e)
  {
  }

  lemma StepMoves(s: State, e: Event)
    requires Inv(s)
    ensures PeersMove(s, Step(s, e), e) && CallsMove(s, Step(s, e), e)
  {
    hide PeersMove, CallsMove, Inv, Fence, ScopeRevoked, Claim, OperationStarted, DrainResumed, DrainSettled;
    if !Enabled(s, e) {
      GrowthMoves(s, s, e);
    } else {
      match e
      case Configure(_) => GrowthMoves(s, Step(s, e), e);
      case RevokeScope(sid) => RevokeMoves(s, sid, e);
      case CallOpen(_, _, _) => GrowthMoves(s, Step(s, e), e);
      case CallClose(id, b) => FenceMoves(s, s.registry[id], false, Some(b), e);
      case Abort(i) => CallMoves(s, Step(s, e), i, e);
      case StartOperation(i) => OperationMoves(s, i, e);
      case SettleDrain(sid, d) => DrainSettledMoves(s, sid, d, e);
      case ResumeAfterDrain(i) => ResumeMoves(s, i, e);
      case StartInitialization(i) => CallMoves(s, Step(s, e), i, e);
      case FinishInitialization(_, _, _) => FinishMoves(s, e);
      case ChangeEpoch(_) => GrowthMoves(s, Step(s, e), e);
    }
  }

  lemma CommitClearsPeer(s: State, e: Event, sid: nat)
    requires Inv(s) && Committed(s, e, sid).Some?
    ensures sid < |s.peers| && s.peers[sid].generation == Committed(s, e, sid).value.peerGeneration
    ensures NoneBusy(Step(s, e).calls, sid)
    ensures InGlobalQueue(s.calls[e.call]) && s.calls[e.call].peer == sid
        && s.calls[e.call].attempt == Committed(s, e, sid)
    ensures sid < |Step(s, e).peers| && Step(s, e).peers[sid].binding == Committed(s, e, sid)
  {
    hide RegistryOk, ScopesOk, PeersOk, OwnerElected, CallsOk, QueueOk, OpeningOk;
    SettledLeavesNoneBusy(s.calls, e.call, s.calls[e.call].(phase := Settled(Opened)));
  }

  lemma LogGrows(s: State, t: State, e: Event, sid: nat, log: seq<Binding>)
    requires PeersMove(s, t, e) && CallsMove(s, t, e) && LogOk(s, log, sid) && Committed(s, e, sid).None?
    ensures LogOk(t, log, sid)
  {
    hide Committed;
  }

  lemma LogExtends(s: State, t: State, i: nat, sid: nat, log: seq<Binding>, b: Binding)
    requires LogOk(s, log, sid) && NoneBusy(t.calls, sid) && sid < |t.peers|
    requires t.peers[sid].binding == Some(b) && b.peerGeneration <= t.peers[sid].generation
    requires i < |s.calls| && InGlobalQueue(s.calls[i]) && s.calls[i].peer == sid && s.calls[i].attempt == Some(b)
    ensures LogOk(t, log + [b], sid)
  {
  }

  lemma StepKeepsLog(s: State, e: Event, sid: nat, log: seq<Binding>)
    requires Inv(s) && LogOk(s, log, sid)
    ensures var c := Committed(s, e, sid); LogOk(Step(s, e), log + (if c.Some? then [c.value] else []), sid)
  {
    StepMoves(s, e);
    if Committed(s, e, sid).Some? {
      CommitClearsPeer(s, e, sid);
      assert s.peers[sid].generation <= Step(s, e).peers[sid].generation;
      LogExtends(s, Step(s, e), e.call, sid, log, Committed(s, e, sid).value);
    } else {
      LogGrows(s, Step(s, e), e, sid, log);
      assert log + [] == log;
    }
    hide *;
  }

  /** Over a whole run the committed bindings of one peer carry strictly increasing
      generations, and an open session is under the last of them. */
  lemma {:induction false} CommitsIncrease(epoch: string, es: seq<Event>, sid: nat)
    ensures LogOk(Run(Initial(epoch), es), CommitLog(Initial(epoch), es, sid), sid)
  {
    if es != [] {
      var es' := es[..|es| - 1];
      CommitsIncrease(epoch, es', sid);
      RunKeepsInv(Initial(epoch), es');
      StepKeepsLog(Run(Initial(epoch), es'), es[|es| - 1], sid, CommitLog(Initial(epoch), es', sid));
      hide Step, LogOk;
    }
  }

  /** A close is an exact-match fence: it does something iff it carries the binding of the
      session that is open now, and then that session is closed under a newer generation. */
  lemma CloseMatchesExactly(s: State, id: string, b: Binding)
    requires Inv(s) && Enabled(s, CallClose(id, b))
    ensures var k := s.registry[id]; var t := Step(s, CallClose(id, b));
            && (t != s <==> s.peers[k].sessionOpen && s.peers[k].binding == Some(b))
            && (t != s ==> !t.peers[k].sessionOpen && t.peers[k].generation == s.peers[k].generation + 1)
            && forall m: nat :: m < |s.peers| && m != k ==> t.peers[m] == s.peers[m]
  {
    FenceShape(s, s.registry[id], false, Some(b));
    hide OwnerElected, TurnsOk, QueueOk, OpeningOk;
  }

  /** A late close carrying any binding but the last one committed changes nothing. */
  lemma LateCloseIsHarmless(epoch: string, es: seq<Event>, id: string, a: nat)
    requires var s := Run(Initial(epoch), es); id in s.registry
    requires var log := CommitLog(Initial(epoch), es, Run(Initial(epoch), es).registry[id]); a + 1 < |log|
    ensures var s := Run(Initial(epoch), es);
            Step(s, CallClose(id, CommitLog(Initial(epoch), es, s.registry[id])[a])) == s
  {
    var s := Run(Initial(epoch), es);
    var b := CommitLog(Initial(epoch), es, s.registry[id])[a];
    RunKeepsInv(Initial(epoch), es);
    CommitsIncrease(epoch, es, s.registry[id]);
    if Enabled(s, CallClose(id, b)) {
      CloseMatchesExactly(s, id, b);
    }
    hide Step, Run, CommitLog, Inv;
  }

  // --------------------------------------------------------- overtaken opens

  /** The generation has moved on since this open fixed the one it relies on. */
  ghost predicate Outdated(s: State, i: nat)
    requires i < |s.calls| && s.calls[i].peer < |s.peers|
  {
    var c, p := s.calls[i], s.peers[s.calls[i].peer];
    match c.phase
    case Waiting => PeerTurn(s, i) && !p.sessionOpen && p.generation != c.expected
    case Draining(_) => p.generation != c.expected
    case InitQueued => c.attempt.Some? && p.generation != c.attempt.value.peerGeneration
    case Initializing => c.attempt.Some? && p.generation != c.attempt.value.peerGeneration
    case Settled(_) => false
  }

  /** An open that a revoke, an abort or a change of generation has overtaken. */
  ghost predicate Overtaken(s: State, i: nat)
    requires i < |s.calls| && s.calls[i].peer < |s.peers|
  {
    match s.calls[i].phase
    case Settled(o) => o != Opened
    case _ => s.calls[i].aborted || !Registered(s.peers, s.registry, s.calls[i].peer) || Outdated(s, i)
  }

  /** A step on the overtaken open itself never opens it. */
  lemma OvertakenActs(s: State, e: Event, i: nat)
    requires Inv(s) && Enabled(s, e) && Target(e) == Some(i) && Overtaken(s, i)
    ensures var t := Step(s, e); i < |t.calls| && t.calls[i].peer == s.calls[i].peer
    ensures var c := Step(s, e).calls[i];
            if c.phase.Settled? then c.phase.outcome != Opened else c.aborted
  {
    hide ScopesOk, PeersOk, OwnerElected, TurnsOk, QueueOk, OpeningOk;
    assert CallOk(s.peers, s.calls[i]);
    assert Registered(s.peers, s.registry, s.calls[i].peer) <==> s.peers[s.calls[i].peer].status != Revoked;
  }

  /** A step on another call or on a peer leaves an overtaken open overtaken. */
  lemma OvertakenWaits(s: State, t: State, e: Event, i: nat)
    requires Inv(s) && Inv(t) && PeersMove(s, t, e) && CallsMove(s, t, e)
    requires i < |s.calls| && Target(e) != Some(i) && Overtaken(s, i)
    requires forall j: nat :: Target(e) == Some(j) && j < |s.calls| && s.calls[j].phase.Settled? ==>
        t.calls[j].phase == s.calls[j].phase
    ensures Overtaken(t, i)
  {
    hide ScopesOk, PeersOk, OwnerElected, QueueOk, OpeningOk;
    var sid := s.calls[i].peer;
    assert CallOk(s.peers, s.calls[i]) && t.calls[i] == s.calls[i];
    assert Registered(t.peers, t.registry, sid) ==> Registered(s.peers, s.registry, sid);
    if Outdated(s, i) && s.calls[i].phase == Waiting {
      assert PeerTurn(t, i);
      if t.peers[sid].sessionOpen {
        assert Committed(s, e, sid).Some?;
        assert s.calls[e.call].peer == sid && Busy(s.calls[e.call]);
      }
    }
  }

  lemma OvertakenStays(s: State, e: Event, i: nat)
    requires Inv(s) && i < |s.calls| && Overtaken(s, i)
    ensures Inv(Step(s, e)) && i < |Step(s, e).calls| && Overtaken(Step(s, e), i)
  {
    StepKeepsInv(s, e);
    StepMoves(s, e);
    if Enabled(s, e) {
      if Target(e) == Some(i) {
        OvertakenActs(s, e, i);
      } else {
        SettledStays(s, e);
        OvertakenWaits(s, Step(s, e), e, i);
      }
    }
    hide Step, PeersMove, RegistryOk, ScopesOk, PeersOk, OwnerElected, TurnsOk, QueueOk, OpeningOk;
  }

  lemma SettledStays(s: State, e: Event)
    requires Enabled(s, e)
    ensures forall j: nat :: Target(e) == Some(j) && j < |s.calls| && s.calls[j].phase.Settled? ==>
        Step(s, e).calls[j].phase == s.calls[j].phase
  {
  }

  /** An overtaken open never commits, however the run goes on. */
  lemma {:induction false} OvertakenNeverOpens(s: State, es: seq<Event>, i: nat)
    requires Inv(s) && i < |s.calls| && Overtaken(s, i)
    ensures Inv(Run(s, es)) && i < |Run(s, es).calls| && Overtaken(Run(s, es), i)
    ensures Run(s, es).calls[i].phase != Settled(Opened)
  {
    if es != [] {
      OvertakenNeverOpens(s, es[..|es| - 1], i);
      OvertakenStays(Run(s, es[..|es| - 1]), es[|es| - 1], i);
    }
  }

  /** And exactly then: an initialized open whose exposure succeeds commits iff it was not overtaken. */
  lemma OpensIffNotOvertaken(s: State, i: nat)
    requires Inv(s) && i < |s.calls| && s.calls[i].phase == Initializing
    ensures Step(s, FinishInitialization(i, true, true)).calls[i].phase == Settled(Opened) <==> !Overtaken(s, i)
  {
    hide PeersOk, OwnerElected, TurnsOk, QueueOk, OpeningOk;
    assert CallOk(s.peers, s.calls[i]);
    var sid := s.calls[i].peer;
    assert Registered(s.peers, s.registry, sid) ==> s.peers[sid].scopeActive;
  }

  /** Revoking the peer, aborting the call, or any other call's step that moves the peer's
      generation while the claimed open waits. */
  ghost predicate Overtakes(s: State, e: Event, i: nat, t: State)
    requires i < |s.calls| && s.calls[i].peer < |s.peers|
  {
    var sid := s.calls[i].peer;
    || e == RevokeScope(sid)
    || e == Abort(i)
    || (InGlobalQueue(s.calls[i]) && Target(e) != Some(i) && sid < |t.peers|
      && t.peers[sid].generation != s.peers[sid].generation)
  }

  lemma WhatOvertakes(s: State, e: Event, i: nat)
    requires Inv(s) && Enabled(s, e) && i < |s.calls| && Unsettled(s.calls[i])
    ensures s.calls[i].peer < |s.peers|
    ensures var t := Step(s, e);
            i < |t.calls| && t.calls[i].peer < |t.peers| && (Overtakes(s, e, i, t) ==> Overtaken(t, i))
  {
    StepMoves(s, e);
    assert CallOk(s.peers, s.calls[i]);
    if e == RevokeScope(s.calls[i].peer) {
      RevokedIsGone(s, s.calls[i].peer);
    }
    hide RegistryOk, ScopesOk, PeersOk, OwnerElected, TurnsOk, QueueOk, OpeningOk, Fence;
  }

  lemma RevokedIsGone(s: State, sid: nat)
    requires sid < |s.peers| && RegistryOk(s.peers, s.registry)
    ensures sid < |ScopeRevoked(s, sid).peers|
        && !Registered(ScopeRevoked(s, sid).peers, ScopeRevoked(s, sid).registry, sid)
  {
    var s1 := s.(peers := s.peers[sid := s.peers[sid].(scopeActive := false)]);
    FenceShape(s1, sid, true, None);
    assert Registered(s1.peers, s1.registry, sid) <==> Registered(s.peers, s.registry, sid);
  }
}
