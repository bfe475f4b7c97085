/** What each turn of a session open decides, and that an open which nothing overtakes gets its session. */
module PeerProgress {
  import opened Prelude
  import opened PeerSessions
  import opened PeerInvariant
  import T = PeerTheorems

  // ------------------------------------------------------- what each turn decides

  /** The call holds the next generation of its peer and stands last in the global queue. */
  predicate Claims(s: State, t: State, i: nat) {
    && i < |s.calls| && i < |t.calls| && s.calls[i].peer < |s.peers|
    && var c, p := s.calls[i], s.peers[s.calls[i].peer];
       && t.calls == s.calls[i := c.(attempt := Some(Binding(c.expected + 1, s.sessionEpoch, c.leaseId)),
         phase := InitQueued)]
       && t.peers == s.peers[c.peer := p.(generation := c.expected + 1, status := Active)]
       && t.initTail == s.initTail + [i]
       && t.owner == s.owner && t.registry == s.registry
  }

  /** The first turn of an open: an open session under its own lease serves it, one under another
      lease is fenced and drained first, a closed peer of the generation seen is claimed, and any
      other is stale. */
  lemma StartDecides(s: State, i: nat)
    requires Inv(s) && Enabled(s, StartOperation(i))
    ensures var c, p := s.calls[i], s.peers[s.calls[i].peer];
            var t := Step(s, StartOperation(i));
            && |t.calls| == |s.calls| && |t.peers| == |s.peers|
            && (t.calls[i].phase == Settled(AlreadyOpen) <==>
                 p.sessionOpen && p.binding.Some? && p.binding.value.leaseId == c.leaseId)
            && (t.calls[i].phase.Draining? <==>
                 p.sessionOpen && p.binding.Some? && p.binding.value.leaseId != c.leaseId)
            && (t.calls[i].phase == InitQueued <==> !p.sessionOpen && p.generation == c.expected)
            && (t.calls[i].phase == Settled(Rejected) <==> !p.sessionOpen && p.generation != c.expected)
            && (t.calls[i].phase == Settled(AlreadyOpen) ==> t.peers == s.peers && t.owner == s.owner)
            && (t.calls[i].phase.Draining? ==>
                 && !t.peers[c.peer].sessionOpen && t.peers[c.peer].binding == None
                 && t.peers[c.peer].generation == p.generation + 1 == t.calls[i].expected
                 && t.peers[c.peer].drain == Some(t.calls[i].phase.drain))
            && (t.calls[i].phase == InitQueued ==> Claims(s, t, i))
  {
    var sid := s.calls[i].peer;
    assert Coincide(s.peers[sid]);
    FenceShape(s, sid, false, s.peers[sid].binding);
    hide Inv, Fence;
  }

  /** The turn after the drain: the claim, iff nothing moved the generation meanwhile. */
  lemma ResumeDecides(s: State, i: nat)
    requires Inv(s) && Enabled(s, ResumeAfterDrain(i))
    ensures var c, p := s.calls[i], s.peers[s.calls[i].peer];
            var t := Step(s, ResumeAfterDrain(i));
            && |t.calls| == |s.calls|
            && (t.calls[i].phase == InitQueued <==> p.generation == c.expected)
            && (t.calls[i].phase == Settled(Rejected) <==> p.generation != c.expected)
            && (t.calls[i].phase == InitQueued ==> Claims(s, t, i))
  {
    assert CallOk(s.peers, s.calls[i]);
    hide Inv;
  }

  /** The open still stands: not aborted, its peer registered, and the generation is its own. */
  predicate Stands(s: State, i: nat) {
    && i < |s.calls| && s.calls[i].peer < |s.peers| && s.calls[i].attempt.Some?
    && !s.calls[i].aborted
    && Registered(s.peers, s.registry, s.calls[i].peer)
    && s.peers[s.calls[i].peer].generation == s.calls[i].attempt.value.peerGeneration
  }

  /** The turn in the global queue: initialization begins iff the open still stands. */
  lemma InitializationDecides(s: State, i: nat)
    requires Inv(s) && Enabled(s, StartInitialization(i))
    ensures var t := Step(s, StartInitialization(i));
            && |t.calls| == |s.calls| && t.peers == s.peers
            && (t.calls[i].phase == Initializing <==> Stands(s, i))
            && (t.calls[i].phase == Settled(Rejected) <==> !Stands(s, i))
            && (Stands(s, i) ==> t.opening == Some(i))
  {
    hide RegistryOk, PeersOk, OwnerElected, CallsOk, TurnsOk, QueueOk, OpeningOk;
    if Registered(s.peers, s.registry, s.calls[i].peer) { RegisteredIsActive(s, s.calls[i].peer); }
    hide Inv;
  }

  lemma RegisteredIsActive(s: State, sid: nat)
    requires Inv(s) && sid < |s.peers| && Registered(s.peers, s.registry, sid)
    ensures s.peers[sid].scopeActive && s.peers[sid].status != Revoked
  { hide PeersOk, OwnerElected, CallsOk, TurnsOk, QueueOk, OpeningOk; }

  /** The end of the initialization: the open commits iff everything went well and it still stands;
      then its session is open under its own binding, and storage I/O is handed over to it. */
  lemma FinishDecides(s: State, i: nat, initialized: bool, exposed: bool)
    requires Inv(s) && Enabled(s, FinishInitialization(i, initialized, exposed))
    ensures var t := Step(s, FinishInitialization(i, initialized, exposed));
            var well := initialized && exposed && Stands(s, i);
            && |t.calls| == |s.calls| && |t.peers| == |s.peers|
            && (t.calls[i].phase == Settled(Opened) <==> well)
            && (t.calls[i].phase == Settled(Rejected) <==> !well)
            && (well ==>
                 && var sid, b := s.calls[i].peer, s.calls[i].attempt.value;
                    && t.peers[sid].sessionOpen && t.peers[sid].binding == Some(b)
                    && t.peers[sid].order == Some(s.commitOrder + 1)
                    && t.owner == Some(Owner(b, s.peers[sid].peerId, s.handoff + 1)))
  {
    hide RegistryOk, PeersOk, OwnerElected, CallsOk, TurnsOk, QueueOk, OpeningOk;
    if Registered(s.peers, s.registry, s.calls[i].peer) { RegisteredIsActive(s, s.calls[i].peer); }
    hide Inv;
  }

  // ------------------------------------------------------------------- progress

  /** How far an open has come. */
  function Rank(p: Phase): nat {
    match p
    case Waiting => 0
    case Draining(_) => 1
    case InitQueued => 2
    case Initializing => 3
    case Settled(_) => 4
  }

  /** Overtaken before it settled. */
  ghost predicate Lost(s: State, i: nat) {
    i < |s.calls| && s.calls[i].peer < |s.peers| && Unsettled(s.calls[i]) && T.Overtaken(s, i)
  }

  /** A turn of the call: an event of its own other than an abort, when it can occur. */
  ghost predicate Turn(s: State, e: Event, i: nat) {
    T.Target(e) == Some(i) && !e.Abort? && Enabled(s, e)
  }

  ghost predicate Fails(s: State, e: Event, i: nat) {
    e.FinishInitialization? && e.call == i && Enabled(s, e) && !(e.initialized && e.exposed)
  }

  /** Settled with a session under its own lease: just committed, and owner of storage I/O, or open before. */
  ghost predicate Served(s: State, i: nat) {
    && i < |s.calls| && s.calls[i].peer < |s.peers|
    && var c, p := s.calls[i], s.peers[s.calls[i].peer];
       && (c.phase == Settled(Opened) || c.phase == Settled(AlreadyOpen))
       && p.sessionOpen && p.binding.Some? && p.binding.value.leaseId == c.leaseId
       && (c.phase == Settled(Opened) ==>
            s.owner.Some? && s.owner.value.binding == p.binding.value && s.owner.value.peerId == p.peerId)
  }

  lemma TurnAdvances(s: State, e: Event, i: nat)
    requires Inv(s) && Turn(s, e, i) && !Lost(s, i) && !Fails(s, e, i)
    ensures var t := Step(s, e);
            && |t.calls| == |s.calls| && t.calls[i].leaseId == s.calls[i].leaseId
            && Rank(t.calls[i].phase) > Rank(s.calls[i].phase)
            && (t.calls[i].phase.Settled? ==> Served(t, i))
  {
    assert CallOk(s.peers, s.calls[i]);
    match e
    case StartOperation(_) => StartServes(s, i);
    case ResumeAfterDrain(_) => ResumeDecides(s, i);
    case StartInitialization(_) => InitializationDecides(s, i);
    case FinishInitialization(_, _, _) => FinishServes(s, i);
    hide Inv, T.Overtaken, T.Outdated, PeerTurn, Served, OperationStarted, DrainResumed, InitializationStarted,
      InitializationFinished;
  }

  lemma StartServes(s: State, i: nat)
    requires Inv(s) && Enabled(s, StartOperation(i)) && !Lost(s, i)
    ensures var t := Step(s, StartOperation(i));
            && |t.calls| == |s.calls| && t.calls[i].leaseId == s.calls[i].leaseId
            && Rank(t.calls[i].phase) > 0
            && (t.calls[i].phase.Settled? ==> Served(t, i))
  {
    StartDecides(s, i);
  }

  lemma FinishServes(s: State, i: nat)
    requires Inv(s) && Enabled(s, FinishInitialization(i, true, true)) && !Lost(s, i)
    ensures var t := Step(s, FinishInitialization(i, true, true));
            |t.calls| == |s.calls| && t.calls[i].leaseId == s.calls[i].leaseId && t.calls[i].phase == Settled(Opened)
              && Served(t, i)
  {
    FinishDecides(s, i, true, true);
  }

  lemma OthersWait(s: State, e: Event, i: nat)
    requires Inv(s) && i < |s.calls| && !Turn(s, e, i)
    ensures var t := Step(s, e);
            && i < |t.calls| && t.calls[i].phase == s.calls[i].phase && t.calls[i].leaseId == s.calls[i].leaseId
            && t.calls[i].peer == s.calls[i].peer
  {
    if Enabled(s, e) { T.StepMoves(s, e); }
    hide Inv, T.PeersMove, Fence, Claim, Commit, Rollback, Settle;
  }

  /** How many turns the call had along the run. */
  ghost function Turns(s: State, es: seq<Event>, i: nat): nat {
    if es == [] then 0
    else
      var n := |es| - 1;
      Turns(s, es[..n], i) + (if Turn(Run(s, es[..n]), es[n], i) then 1 else 0)
  }

  /** Nothing overtakes the open, and its initialization and exposure succeed. */
  ghost predicate Undisturbed(s: State, es: seq<Event>, i: nat) {
    forall k: nat :: k < |es| ==> !Lost(Run(s, es[..k]), i) && !Fails(Run(s, es[..k]), es[k], i)
  }

  /** Before event `k` the open had not settled, and after it the open was served. */
  ghost predicate ServedAt(s: State, es: seq<Event>, i: nat, k: nat) {
    k < |es| && i < |Run(s, es[..k]).calls| && Unsettled(Run(s, es[..k]).calls[i]) && Served(Run(s, es[..k + 1]), i)
  }

  ghost predicate EverServed(s: State, es: seq<Event>, i: nat) { exists k: nat :: ServedAt(s, es, i, k) }

  /** How far the call has come after some turns; `served` says whether it was served on settling. */
  ghost predicate Advanced(c: Call, d: Call, turns: nat, served: bool) {
    && d.leaseId == c.leaseId
    && (Unsettled(d) ==> Rank(d.phase) >= Rank(c.phase) + turns)
    && (d.phase.Settled? ==> served)
    && (turns >= 4 ==> d.phase.Settled?)
  }

  /** An undisturbed open goes on with every turn that it gets; after at most four it has settled, and
      at that moment its peer's session is open under its lease: opened before, or just now, and then
      that peer owns storage I/O. */
  lemma {:induction false} OpenSucceeds(s: State, es: seq<Event>, i: nat)
    requires Inv(s) && i < |s.calls| && Unsettled(s.calls[i]) && Undisturbed(s, es, i)
    ensures i < |Run(s, es).calls|
    ensures Advanced(s.calls[i], Run(s, es).calls[i], Turns(s, es, i), EverServed(s, es, i))
    decreases |es|, 1
  {
    if es == [] {
      NotYet(s, i);
    } else {
      OneMore(s, es, i);
    }
    hide *;
  }

  lemma NotYet(s: State, i: nat)
    requires i < |s.calls| && Unsettled(s.calls[i])
    ensures Run(s, []) == s && Advanced(s.calls[i], s.calls[i], Turns(s, [], i), false)
    ensures Advanced(s.calls[i], s.calls[i], Turns(s, [], i), EverServed(s, [], i))
  { hide Step, ServedAt; }

  lemma {:induction false} OneMore(s: State, es: seq<Event>, i: nat)
    requires Inv(s) && i < |s.calls| && Unsettled(s.calls[i]) && Undisturbed(s, es, i) && es != []
    ensures i < |Run(s, es).calls|
    ensures Advanced(s.calls[i], Run(s, es).calls[i], Turns(s, es, i), EverServed(s, es, i))
    decreases |es|, 0
  {
    var n := |es| - 1;
    var before := es[..n];
    RunLast(s, es, i);
    hide *;
    var r := Run(s, before);
    UndisturbedBefore(s, es, i);
    OpenSucceeds(s, before, i);
    T.RunKeepsInv(s, before);
    StepAdvances(s.calls[i], r, es[n], i, Turns(s, before, i), EverServed(s, before, i));
    ServedBefore(s, es, i);
    if Unsettled(r.calls[i]) && Served(Run(s, es), i) { ServedNow(s, es, i); }
    AdvancedMore(s.calls[i], Run(s, es).calls[i], Turns(s, es, i),
                 (EverServed(s, before, i)) || (Unsettled(r.calls[i]) && Served(Run(s, es), i)),
                 EverServed(s, es, i));
  }

  lemma RunLast(s: State, es: seq<Event>, i: nat)
    requires es != []
    ensures var n := |es| - 1;
            && Run(s, es) == Step(Run(s, es[..n]), es[n])
            && Turns(s, es, i) == Turns(s, es[..n], i) + (if Turn(Run(s, es[..n]), es[n], i) then 1 else 0)
  { hide Step, Turn; }

  lemma AdvancedMore(c: Call, d: Call, turns: nat, served: bool, more: bool)
    requires Advanced(c, d, turns, served) && (served ==> more)
    ensures Advanced(c, d, turns, more)
  { }

  lemma StepAdvances(c: Call, s: State, e: Event, i: nat, turns: nat, served: bool)
    requires Inv(s) && i < |s.calls| && Advanced(c, s.calls[i], turns, served) && !Lost(s, i) && !Fails(s, e, i)
    ensures var t := Step(s, e);
            && i < |t.calls|
            && Advanced(c, t.calls[i], turns + (if Turn(s, e, i) then 1 else 0),
                        served || (Unsettled(s.calls[i]) && Served(t, i)))
  {
    if s.calls[i].phase.Settled? { SettledHasNoTurn(s, e, i); }
    if Turn(s, e, i) { TurnAdvances(s, e, i); } else { OthersWait(s, e, i); }
    hide Inv, Step, Served, Turn, Lost, Fails;
  }

  lemma ServedNow(s: State, es: seq<Event>, i: nat)
    requires es != []
    requires i < |Run(s, es[..|es| - 1]).calls| && Unsettled(Run(s, es[..|es| - 1]).calls[i]) && Served(Run(s, es), i)
    ensures EverServed(s, es, i)
  {
    hide Run, Served;
    assert es[..|es| - 1 + 1] == es;
    assert ServedAt(s, es, i, |es| - 1);
  }

  lemma UndisturbedBefore(s: State, es: seq<Event>, i: nat)
    requires es != [] && Undisturbed(s, es, i)
    ensures Undisturbed(s, es[..|es| - 1], i)
    ensures !Lost(Run(s, es[..|es| - 1]), i) && !Fails(Run(s, es[..|es| - 1]), es[|es| - 1], i)
  {
    hide Run, Lost, Fails;
    var before := es[..|es| - 1];
    forall k: nat | k < |before| ensures !Lost(Run(s, before[..k]), i) && !Fails(Run(s, before[..k]), before[k], i) {
      assert before[..k] == es[..k];
    }
  }

  lemma ServedBefore(s: State, es: seq<Event>, i: nat)
    requires es != []
    ensures EverServed(s, es[..|es| - 1], i) ==> EverServed(s, es, i)
  {
    hide Run, Served;
    var before := es[..|es| - 1];
    forall k: nat | ServedAt(s, before, i, k) ensures ServedAt(s, es, i, k) {
      assert before[..k] == es[..k] && before[..k + 1] == es[..k + 1];
    }
  }

  lemma SettledHasNoTurn(s: State, e: Event, i: nat)
    requires i < |s.calls| && s.calls[i].phase.Settled?
    ensures !Turn(s, e, i)
  { }

  // --------------------------------------------------------- turns that can be had

  /** The turns of an open for which nothing else is in the way. */
  ghost function OwnTurns(s: State, i: nat): seq<Event>
    requires i < |s.calls| && s.calls[i].peer < |s.peers|
  {
    if s.peers[s.calls[i].peer].sessionOpen then
      [StartOperation(i), SettleDrain(s.calls[i].peer, s.drains), ResumeAfterDrain(i), StartInitialization(i),
       FinishInitialization(i, true, true)]
    else [StartOperation(i), StartInitialization(i), FinishInitialization(i, true, true)]
  }

  /** From the head of the global queue an open that stands gets its session. */
  lemma HeadOpens(s: State, i: nat)
    requires Inv(s) && Stands(s, i) && s.calls[i].phase == InitQueued && s.initTail != [] && s.initTail[0] == i
    ensures var t := Step(Step(s, StartInitialization(i)), FinishInitialization(i, true, true));
            i < |t.calls| && t.calls[i].phase == Settled(Opened) && t.calls[i].leaseId == s.calls[i].leaseId
              && Served(t, i)
  {
    var t := Step(s, StartInitialization(i));
    InitializationDecides(s, i);
    StepKeepsInv(s, StartInitialization(i));
    InitializingStands(s, i);
    FinishDecides(t, i, true, true);
    CommittedIsServed(t, i);
    hide *;
  }

  lemma InitializingStands(s: State, i: nat)
    requires Inv(s) && Stands(s, i) && Enabled(s, StartInitialization(i))
    ensures var t := Step(s, StartInitialization(i));
            Stands(t, i) && t.calls[i].leaseId == s.calls[i].leaseId && Enabled(t, FinishInitialization(i, true, true))
  {
    RegisteredIsActive(s, s.calls[i].peer);
    hide Inv;
  }

  lemma CommittedIsServed(s: State, i: nat)
    requires Inv(s) && Stands(s, i) && Enabled(s, FinishInitialization(i, true, true))
    ensures var t := Step(s, FinishInitialization(i, true, true));
            i < |t.calls| && t.calls[i].phase == Settled(Opened) && t.calls[i].leaseId == s.calls[i].leaseId
              && Served(t, i)
  {
    assert CallOk(s.peers, s.calls[i]);
    RegisteredIsActive(s, s.calls[i].peer);
    hide Inv;
  }

  /** A claim made for an open that nothing overtook stands. */
  lemma ClaimStands(s: State, t: State, i: nat)
    requires Claims(s, t, i) && Inv(t) && s.initTail == []
    requires !s.calls[i].aborted && Registered(s.peers, s.registry, s.calls[i].peer)
    ensures Stands(t, i) && t.calls[i].phase == InitQueued && t.initTail == [i]
    ensures t.calls[i].leaseId == s.calls[i].leaseId
  { hide Inv; }

  /** An open whose turn has come, with the global queue empty and nothing overtaking it, gets its
      session by its own turns alone; a session under another lease is fenced and drained on the way. */
  lemma OpenCompletes(s: State, i: nat)
    requires Inv(s) && Enabled(s, StartOperation(i)) && !T.Overtaken(s, i) && s.initTail == []
    requires var p := s.peers[s.calls[i].peer]; p.sessionOpen ==>
        p.binding.Some? && p.binding.value.leaseId != s.calls[i].leaseId
    ensures var t := Run(s, OwnTurns(s, i));
            i < |t.calls| && t.calls[i].phase == Settled(Opened) && t.calls[i].leaseId == s.calls[i].leaseId
              && Served(t, i)
  {
    StartDecides(s, i);
    StepKeepsInv(s, StartOperation(i));
    var t := Step(s, StartOperation(i));
    if s.peers[s.calls[i].peer].sessionOpen {
      DrainThenClaim(s, i);
      RunFive(s, StartOperation(i), SettleDrain(s.calls[i].peer, s.drains), ResumeAfterDrain(i), StartInitialization(i),
              FinishInitialization(i, true, true));
      HeadOpens(Step(Step(t, SettleDrain(s.calls[i].peer, s.drains)), ResumeAfterDrain(i)), i);
    } else {
      NotOutdated(s, i);
      ClaimStands(s, t, i);
      HeadOpens(t, i);
      RunThree(s, StartOperation(i), StartInitialization(i), FinishInitialization(i, true, true));
    }
    hide Run, Step, Inv, Served, Stands, Claims, T.Overtaken, PeerTurn;
  }

  lemma NotOutdated(s: State, i: nat)
    requires Inv(s) && Enabled(s, StartOperation(i)) && !T.Overtaken(s, i)
    ensures !s.calls[i].aborted && Registered(s.peers, s.registry, s.calls[i].peer)
    ensures !s.peers[s.calls[i].peer].sessionOpen ==> s.peers[s.calls[i].peer].generation == s.calls[i].expected
  { hide Inv; }

  lemma DrainThenClaim(s: State, i: nat)
    requires Inv(s) && Enabled(s, StartOperation(i)) && !T.Overtaken(s, i) && s.initTail == []
    requires var p := s.peers[s.calls[i].peer];
             p.sessionOpen && p.binding.Some? && p.binding.value.leaseId != s.calls[i].leaseId
    ensures var t := Step(Step(Step(s, StartOperation(i)), SettleDrain(s.calls[i].peer, s.drains)),
        ResumeAfterDrain(i));
            && Inv(t) && Stands(t, i) && t.calls[i].phase == InitQueued && t.initTail == [i]
            && t.calls[i].leaseId == s.calls[i].leaseId
  {
    NotOutdated(s, i);
    var e1, e2, e3 := StartOperation(i), SettleDrain(s.calls[i].peer, s.drains), ResumeAfterDrain(i);
    var a := Step(s, e1);
    var b := Step(a, e2);
    StepKeepsInv(s, e1);
    StepKeepsInv(a, e2);
    StepKeepsInv(b, e3);
    FencedForDrain(s, i);
    DrainedReady(a, i, s.calls[i].peer, s.drains);
    ResumeDecides(b, i);
    ClaimStands(b, Step(b, e3), i);
    hide Step, Inv, Stands, Claims, T.Overtaken, PeerTurn;
  }

  lemma FencedForDrain(s: State, i: nat)
    requires Inv(s) && Enabled(s, StartOperation(i))
    requires var p := s.peers[s.calls[i].peer];
             p.sessionOpen && p.binding.Some? && p.binding.value.leaseId != s.calls[i].leaseId
    requires !s.calls[i].aborted && Registered(s.peers, s.registry, s.calls[i].peer)
    ensures var t := Step(s, StartOperation(i));
            && |t.calls| == |s.calls| && |t.peers| == |s.peers|
            && t.calls[i] == s.calls[i].(expected := t.peers[s.calls[i].peer].generation, phase := Draining(s.drains))
            && Registered(t.peers, t.registry, s.calls[i].peer) && t.initTail == s.initTail && t.drains == s.drains + 1
  {
    var sid := s.calls[i].peer;
    assert Coincide(s.peers[sid]);
    FenceShape(s, sid, false, s.peers[sid].binding);
    hide Inv, Fence;
  }

  lemma DrainedReady(s: State, i: nat, sid: nat, d: nat)
    requires i < |s.calls| && s.calls[i].peer == sid < |s.peers| && s.calls[i].phase == Draining(d) && d < s.drains
    requires s.peers[sid].generation == s.calls[i].expected && Registered(s.peers, s.registry, sid)
    ensures var t := Step(s, SettleDrain(sid, d));
            && t.calls == s.calls && |t.peers| == |s.peers| && t.initTail == s.initTail
            && t.peers[sid].generation == s.peers[sid].generation && Registered(t.peers, t.registry, sid)
            && Enabled(t, ResumeAfterDrain(i))
  { }

  lemma RunThree(s: State, e1: Event, e2: Event, e3: Event)
    ensures Run(s, [e1, e2, e3]) == Step(Step(Step(s, e1), e2), e3)
  {
    hide Step;
    assert [e1, e2, e3][..2] == [e1, e2] && [e1, e2][..1] == [e1] && [e1][..0] == [];
    assert Run(s, [e1]) == Step(Run(s, []), e1);
    assert Run(s, [e1, e2]) == Step(Run(s, [e1]), e2);
  }

  lemma RunFive(s: State, e1: Event, e2: Event, e3: Event, e4: Event, e5: Event)
    ensures Run(s, [e1, e2, e3, e4, e5]) == Step(Step(Step(Step(Step(s, e1), e2), e3), e4), e5)
  {
    hide Step;
    RunThree(s, e1, e2, e3);
    assert [e1, e2, e3, e4, e5][..4] == [e1, e2, e3, e4] && [e1, e2, e3, e4][..3] == [e1, e2, e3];
    assert Run(s, [e1, e2, e3, e4]) == Step(Run(s, [e1, e2, e3]), e4);
  }

  /** A page that connects is registered, active and closed; an open that it calls waits last, with the
      lease it brought and the generation it saw. */
  lemma ArrivalsWait(s: State, id: string, leaseId: string, aborted: bool)
    requires Inv(s)
    ensures id !in s.registry ==>
              var t := Step(s, Configure(id));
              && id in t.registry && t.registry[id] == |s.peers| && |t.peers| == |s.peers| + 1
              && t.peers[..|s.peers|] == s.peers && t.calls == s.calls
              && var p := t.peers[|s.peers|];
                 p.peerId == id && p.scopeActive && !p.sessionOpen && p.generation == 0
    ensures id in s.registry ==>
              var t := Step(s, CallOpen(id, leaseId, aborted));
              && s.registry[id] < |s.peers| && t.peers == s.peers && |t.calls| == |s.calls| + 1
              && t.calls[..|s.calls|] == s.calls
              && var c := t.calls[|s.calls|];
                 && c.phase == Waiting && c.peer == s.registry[id] && c.leaseId == leaseId && c.aborted == aborted
                 && c.expected == s.peers[c.peer].generation
  {
    if id in s.registry {
      assert Registered(s.peers, s.registry, s.registry[id]);
      RegisteredIsActive(s, s.registry[id]);
    }
    hide ScopesOk, PeersOk, OwnerElected, CallsOk, TurnsOk, QueueOk, OpeningOk;
  }

  /** The first page of a worker gets the first session, and owns storage I/O. */
  lemma FirstPageOpens(epoch: string, id: string, leaseId: string)
    ensures var s := Run(Initial(epoch), [Configure(id), CallOpen(id, leaseId, false), StartOperation(0),
                                          StartInitialization(0), FinishInitialization(0, true, true)]);
            && |s.calls| == 1 && s.calls[0].phase == Settled(Opened)
            && s.owner == Some(Owner(Binding(1, epoch, leaseId), id, 1))
  {
    FirstClaim(epoch, id, leaseId);
    FirstCommit(FirstClaimed(epoch, id, leaseId), Binding(1, epoch, leaseId), id);
    RunFive(Initial(epoch), Configure(id), CallOpen(id, leaseId, false), StartOperation(0), StartInitialization(0),
            FinishInitialization(0, true, true));
    hide Run, Step;
  }

  function FirstClaimed(epoch: string, id: string, leaseId: string): State {
    var call := Call(0, leaseId, 0, false, Some(Binding(1, epoch, leaseId)), InitQueued);
    State([Peer(id, true, Active, false, 1, None, None, None)], map[id := 0], None, 0, 0, epoch, [call], [0], None, 0,
      {})
  }

  lemma FirstClaim(epoch: string, id: string, leaseId: string)
    ensures Step(Step(Step(Initial(epoch), Configure(id)), CallOpen(id, leaseId, false)), StartOperation(0))
         == FirstClaimed(epoch, id, leaseId)
  {
    hide Fence, Settle;
    var a := Step(Initial(epoch), Configure(id));
    assert a.peers == [Peer(id, true, Active, false, 0, None, None, None)] && a.registry == map[id := 0];
    var b := Step(a, CallOpen(id, leaseId, false));
    assert b.calls == [Call(0, leaseId, 0, false, None, Waiting)];
  }

  lemma FirstCommit(s: State, b: Binding, id: string)
    requires |s.peers| == 1 && s.peers[0].peerId == id && s.peers[0].scopeActive && s.registry == map[id := 0]
    requires |s.calls| == 1 && s.calls[0].peer == 0 && s.calls[0].phase == InitQueued && s.initTail == [0]
    requires s.calls[0].attempt == Some(b) && s.peers[0].generation == b.peerGeneration && !s.calls[0].aborted
        && s.handoff == 0
    ensures var t := Step(Step(s, StartInitialization(0)), FinishInitialization(0, true, true));
            |t.calls| == 1 && t.calls[0].phase == Settled(Opened) && t.owner == Some(Owner(b, id, 1))
  {
    hide Rollback;
  }
}
