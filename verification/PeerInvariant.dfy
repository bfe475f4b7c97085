/** The inductive invariant of the peer sessions: the election of the storage owner,
    the coincidence of the session fields and the discipline of the two open queues. */
module PeerInvariant {
  import opened Prelude
  import opened PeerSessions

  ghost predicate RegistryOk(peers: seq<Peer>, registry: map<string, nat>) {
    && (forall id :: id in registry ==> registry[id] < |peers| && peers[registry[id]].peerId == id)
    && (forall k: nat :: k < |peers| ==> (Registered(peers, registry, k) <==> peers[k].status != Revoked))
  }

  /** Every registered peer but `exempt` has an active scope; revocation fences the exempted one next. */
  ghost predicate ScopesOk(peers: seq<Peer>, exempt: Option<nat>) {
    forall k: nat :: k < |peers| && peers[k].status != Revoked && exempt != Some(k) ==> peers[k].scopeActive
  }

  /** sessionOpen, status "open", a binding and a commit order coincide. */
  predicate Coincide(p: Peer) {
    && (p.sessionOpen <==> p.status == Open)
    && (p.sessionOpen <==> p.binding.Some?)
    && (p.sessionOpen <==> p.order.Some?)
    && (p.sessionOpen ==> p.binding.value.peerGeneration == p.generation)
  }

  function OrderOf(p: Peer): nat { if p.order.Some? then p.order.value else 0 }

  ghost predicate PeersOk(peers: seq<Peer>, commitOrder: nat) {
    && (forall k: nat :: k < |peers| ==> Coincide(peers[k]) && OrderOf(peers[k]) <= commitOrder)
    && (forall k: nat, m: nat ::
          k < |peers| && m < |peers| && k != m && peers[k].sessionOpen && peers[m].sessionOpen ==>
            OrderOf(peers[k]) != OrderOf(peers[m]))
  }

  /** The owner is exactly the open peer with the greatest commit order. */
  ghost predicate OwnerElected(peers: seq<Peer>, registry: map<string, nat>, owner: Option<Owner>, handoff: nat) {
    match owner
    case None => forall k: nat :: k < |peers| ==> !peers[k].sessionOpen
    case Some(o) =>
      && o.peerId in registry && registry[o.peerId] < |peers|
      && o.commitOrder == handoff
      && var w := peers[registry[o.peerId]];
         && w.sessionOpen
         && w.binding == Some(o.binding)
         && forall k: nat :: k < |peers| && peers[k].sessionOpen && k != registry[o.peerId] ==>
              OrderOf(peers[k]) < OrderOf(w)
  }

  predicate InGlobalQueue(c: Call) { c.phase.InitQueued? || c.phase.Initializing? }

  predicate Busy(c: Call) { c.phase.Draining? || InGlobalQueue(c) }

  ghost predicate CallOk(peers: seq<Peer>, c: Call) {
    && c.peer < |peers|
    && c.expected <= peers[c.peer].generation
    && (peers[c.peer].status == Revoked ==> c.expected < peers[c.peer].generation)
    && (InGlobalQueue(c) ==>
          && c.attempt.Some? && c.attempt.value.leaseId == c.leaseId
          && c.attempt.value.peerGeneration <= peers[c.peer].generation)
    && (Busy(c) ==> !peers[c.peer].sessionOpen)
  }

  ghost predicate CallsOk(peers: seq<Peer>, calls: seq<Call>) {
    forall i: nat :: i < |calls| ==> CallOk(peers, calls[i])
  }

  /** Operations of one peer run one at a time, in call order. */
  ghost predicate TurnsOk(calls: seq<Call>) {
    forall i: nat, j: nat :: i < j < |calls| && calls[i].peer == calls[j].peer && Unsettled(calls[i]) ==>
      calls[j].phase == Waiting
  }

  /** The global initialization queue holds exactly the claimed attempts, once each. */
  ghost predicate QueueOk(calls: seq<Call>, initTail: seq<nat>) {
    && (forall k: nat :: k < |initTail| ==> initTail[k] < |calls| && InGlobalQueue(calls[initTail[k]]))
    && (forall k: nat, m: nat :: k < m < |initTail| ==> initTail[k] != initTail[m])
    && (forall i: nat :: i < |calls| && InGlobalQueue(calls[i]) ==> i in initTail)
  }

  /** Only the head of the global queue initializes, and it is the worker's opening session. */
  ghost predicate OpeningOk(calls: seq<Call>, initTail: seq<nat>, opening: Option<nat>) {
    match opening
    case None => forall i: nat :: i < |calls| ==> !calls[i].phase.Initializing?
    case Some(w) =>
      && w < |calls| && calls[w].phase.Initializing? && initTail != [] && initTail[0] == w
      && forall i: nat :: i < |calls| && calls[i].phase.Initializing? ==> i == w
  }

  ghost predicate InvBut(s: State, exempt: Option<nat>) {
    && RegistryOk(s.peers, s.registry)
    && ScopesOk(s.peers, exempt)
    && PeersOk(s.peers, s.commitOrder)
    && OwnerElected(s.peers, s.registry, s.owner, s.handoff)
    && CallsOk(s.peers, s.calls)
    && TurnsOk(s.calls)
    && QueueOk(s.calls, s.initTail)
    && OpeningOk(s.calls, s.initTail, s.opening)
  }

  ghost predicate Inv(s: State) { InvBut(s, None) }

  /** What a raised fence does to everything but the election. */
  lemma FenceShape(s: State, sid: nat, physical: bool, b: Option<Binding>)
    requires sid < |s.peers|
    ensures var (t, fenced) := Fence(s, sid, physical, b);
            && (fenced <==> s.peers[sid].status != Revoked && (b.None? || b == s.peers[sid].binding))
            && (!fenced ==> t == s)
            && (fenced ==>
                  && t.peers == s.peers[sid := Fenced(s.peers[sid], physical, s.drains)]
                  && t.registry == (if physical then s.registry - {s.peers[sid].peerId} else s.registry)
                  && t == s.(peers := t.peers, registry := t.registry, owner := t.owner, handoff := t.handoff,
                    drains := s.drains + 1))
  {
  }

  lemma SelectionElects(s: State)
    requires PeersOk(s.peers, s.commitOrder)
    requires forall k: nat :: k < |s.peers| && s.peers[k].sessionOpen ==>
        Registered(s.peers, s.registry, k) && s.peers[k].scopeActive
    ensures var t := SelectOwner(s); OwnerElected(t.peers, t.registry, t.owner, t.handoff)
  {
    forall k: nat | k < |s.peers| ensures Candidate(s, k) <==> s.peers[k].sessionOpen {}
    match Newest(s, |s.peers|) {
      case None =>
      case Some(k) => assert s.registry[s.peers[k].peerId] == k;
    }
  }

  lemma ForgetPeer(peers: seq<Peer>, registry: map<string, nat>, owner: Option<Owner>, handoff: nat, sid: nat)
    requires OwnerElected(peers, registry, owner, handoff)
    requires sid < |peers| && !peers[sid].sessionOpen && Registered(peers, registry, sid)
    ensures OwnerElected(peers, registry - {peers[sid].peerId}, owner, handoff)
  {
  }

  /** Fencing the owner hands storage to the newest survivor; fencing another peer leaves the owner. */
  lemma WithdrawElects(s: State, sid: nat, physical: bool)
    requires InvBut(s, Some(sid)) && sid < |s.peers| && s.peers[sid].status != Revoked
    ensures var w := Withdraw(s, sid, physical);
            OwnerElected(w.peers, w.registry, w.owner, w.handoff)
  {
    hide CallsOk, TurnsOk, QueueOk, OpeningOk;
    var u := s.(peers := s.peers[sid := Fenced(s.peers[sid], physical, s.drains)], drains := s.drains + 1);
    if Owns(s, sid) {
      hide OwnerElected, SelectOwner;
      FencedElectable(s, sid, physical);
      SelectionElects(u.(owner := None));
    } else {
      assert Registered(s.peers, s.registry, sid);
      hide RegistryOk, ScopesOk, PeersOk, SelectOwner;
      OwnerStays(s.peers, s.registry, s.owner, s.handoff, sid, u.peers[sid]);
    }
  }

  lemma FencedElectable(s: State, sid: nat, physical: bool)
    requires InvBut(s, Some(sid)) && sid < |s.peers| && s.peers[sid].status != Revoked
    ensures var peers := s.peers[sid := Fenced(s.peers[sid], physical, s.drains)];
            && PeersOk(peers, s.commitOrder)
            && forall k: nat :: k < |peers| && peers[k].sessionOpen ==>
              Registered(peers, s.registry, k) && peers[k].scopeActive
  {
    hide CallsOk, TurnsOk, QueueOk, OpeningOk, OwnerElected;
    var peers := s.peers[sid := Fenced(s.peers[sid], physical, s.drains)];
    forall k: nat | k < |peers| && peers[k].sessionOpen
      ensures Registered(peers, s.registry, k) && peers[k].scopeActive
    {
      assert k != sid && Registered(s.peers, s.registry, k);
    }
  }

  lemma OwnerStays(peers: seq<Peer>, registry: map<string, nat>, owner: Option<Owner>, handoff: nat, sid: nat, p: Peer)
    requires OwnerElected(peers, registry, owner, handoff) && sid < |peers| && !p.sessionOpen
    requires owner.Some? ==> owner.value.peerId in registry
    requires owner.Some? && registry[owner.value.peerId] == sid ==>
               owner.value.peerId == peers[sid].peerId && peers[sid].binding != Some(owner.value.binding)
    ensures OwnerElected(peers[sid := p], registry, owner, handoff)
  {
  }

  lemma FenceRegisters(peers: seq<Peer>, registry: map<string, nat>, sid: nat, physical: bool, drain: nat)
    requires RegistryOk(peers, registry) && sid < |peers| && peers[sid].status != Revoked
    ensures RegistryOk(peers[sid := Fenced(peers[sid], physical, drain)],
                       if physical then registry - {peers[sid].peerId} else registry)
  {
    var after := peers[sid := Fenced(peers[sid], physical, drain)];
    var names := if physical then registry - {peers[sid].peerId} else registry;
    assert Registered(peers, registry, sid);
    forall k: nat | k < |after| && k != sid ensures Registered(after, names, k) <==> Registered(peers, registry, k) {
    }
  }

  lemma FencedPeersOk(peers: seq<Peer>, calls: seq<Call>, commitOrder: nat, sid: nat, physical: bool, drain: nat)
    requires PeersOk(peers, commitOrder) && ScopesOk(peers, Some(sid)) && CallsOk(peers, calls)
    requires sid < |peers| && (physical || peers[sid].scopeActive)
    ensures var after := peers[sid := Fenced(peers[sid], physical, drain)];
            PeersOk(after, commitOrder) && ScopesOk(after, None) && CallsOk(after, calls)
  {
  }

  lemma WithdrawShape(s: State, sid: nat, physical: bool)
    requires sid < |s.peers|
    ensures var w := Withdraw(s, sid, physical);
            && w.peers == s.peers[sid := Fenced(s.peers[sid], physical, s.drains)]
            && w == s.(peers := w.peers, owner := w.owner, handoff := w.handoff, drains := s.drains + 1)
            && s.handoff <= w.handoff
  {
  }

  lemma FenceKeepsInv(s: State, sid: nat, physical: bool, b: Option<Binding>)
    requires InvBut(s, Some(sid)) && sid < |s.peers| && (physical || s.peers[sid].scopeActive)
    requires Fence(s, sid, physical, b).1
    ensures Inv(Fence(s, sid, physical, b).0)
  {
    FencedPeersOk(s.peers, s.calls, s.commitOrder, sid, physical, s.drains);
    FenceRegisters(s.peers, s.registry, sid, physical, s.drains);
    WithdrawElects(s, sid, physical);
    WithdrawShape(s, sid, physical);
    var w := Withdraw(s, sid, physical);
    if physical {
      assert Registered(s.peers, s.registry, sid);
      ForgetPeer(w.peers, w.registry, w.owner, w.handoff, sid);
    }
    hide RegistryOk, ScopesOk, PeersOk, OwnerElected, CallsOk, TurnsOk, QueueOk, OpeningOk, Withdraw;
  }

  lemma PopKeepsQueue(calls: seq<Call>, initTail: seq<nat>, c: Call)
    requires QueueOk(calls, initTail) && initTail != [] && !InGlobalQueue(c)
    ensures QueueOk(calls[initTail[0] := c], initTail[1..])
  {
    var i, rest := initTail[0], initTail[1..];
    assert forall k: nat :: k < |rest| ==> rest[k] == initTail[k + 1];
    forall j: nat | j < |calls| && j != i && InGlobalQueue(calls[j]) ensures j in rest {
      var k :| 0 <= k < |initTail| && initTail[k] == j;
      assert rest[k - 1] == j;
    }
  }

  /** A closed peer may change status, generation upwards and drain without disturbing anything else. */
  lemma QuietPeer(s: State, sid: nat, q: Peer)
    requires Inv(s) && sid < |s.peers|
    requires var p := s.peers[sid];
             && q == p.(status := Active, generation := q.generation, drain := q.drain)
             && !p.sessionOpen && p.status != Revoked && p.generation <= q.generation
    ensures Inv(s.(peers := s.peers[sid := q]))
  {
    var peers := s.peers[sid := q];
    forall k: nat | k < |peers| ensures Registered(peers, s.registry, k) <==> Registered(s.peers, s.registry, k) {}
    assert PeersOk(peers, s.commitOrder) && OwnerElected(peers, s.registry, s.owner, s.handoff);
    assert CallsOk(peers, s.calls);
    hide TurnsOk, QueueOk, OpeningOk;
  }

  lemma CallUpdate(peers: seq<Peer>, calls: seq<Call>, i: nat, c: Call)
    requires CallsOk(peers, calls) && TurnsOk(calls) && i < |calls| && CallOk(peers, c) && c.peer == calls[i].peer
    requires c.phase == calls[i].phase
          || (Unsettled(calls[i]) &&
              forall j: nat :: j < |calls| && j != i && calls[j].peer == c.peer && Unsettled(calls[j]) ==>
                j > i && calls[j].phase == Waiting)
    ensures CallsOk(peers, calls[i := c]) && TurnsOk(calls[i := c])
  {
  }

  lemma SettleKeepsInv(s: State, i: nat, o: Outcome)
    requires Inv(s) && i < |s.calls| && Unsettled(s.calls[i]) && PeerTurn(s, i)
    requires InGlobalQueue(s.calls[i]) ==> s.initTail != [] && s.initTail[0] == i
    ensures Inv(Settle(s, i, o))
  {
    if InGlobalQueue(s.calls[i]) {
      PopKeepsQueue(s.calls, s.initTail, s.calls[i].(phase := Settled(o)));
    }
  }

  lemma ClaimKeepsQueue(calls: seq<Call>, initTail: seq<nat>, i: nat, c: Call)
    requires QueueOk(calls, initTail) && i < |calls| && !InGlobalQueue(calls[i]) && c.phase.InitQueued?
    ensures QueueOk(calls[i := c], initTail + [i])
  {
    forall j: nat | j < |calls| && j != i && InGlobalQueue(calls[j]) ensures j in initTail + [i] {
      assert j in initTail;
    }
    assert (initTail + [i])[|initTail|] == i;
  }

  lemma ClaimKeepsInv(s: State, i: nat)
    requires Inv(s) && i < |s.calls| && (s.calls[i].phase.Waiting? || s.calls[i].phase.Draining?)
    requires forall j: nat :: j < |s.calls| && j != i && s.calls[j].peer == s.calls[i].peer && Unsettled(s.calls[j]) ==>
               j > i && s.calls[j].phase == Waiting
    requires var p := s.peers[s.calls[i].peer];
             && !p.sessionOpen && p.generation == s.calls[i].expected
             && p.status != Revoked
    ensures Inv(Claim(s, i))
  {
    var c := s.calls[i];
    var t := Claim(s, i);
    QuietPeer(s, c.peer, t.peers[c.peer]);
    CallUpdate(t.peers, s.calls, i, t.calls[i]);
    ClaimKeepsQueue(s.calls, s.initTail, i, t.calls[i]);
    assert OpeningOk(t.calls, t.initTail, t.opening);
    hide RegistryOk, ScopesOk, PeersOk, OwnerElected, CallsOk, TurnsOk, QueueOk;
  }

  lemma OperationKeepsInv(s: State, i: nat)
    requires Inv(s) && Enabled(s, StartOperation(i))
    ensures Inv(OperationStarted(s, i))
  {
    var c := s.calls[i];
    var p := s.peers[c.peer];
    if p.sessionOpen && p.status == Open && p.binding.Some? && p.binding.value.leaseId == c.leaseId {
      SettleKeepsInv(s, i, AlreadyOpen);
    } else if p.sessionOpen {
      FenceShape(s, c.peer, false, p.binding);
      FenceKeepsInv(s, c.peer, false, p.binding);
      var s1 := Fence(s, c.peer, false, p.binding).0;
      var t := OperationStarted(s, i);
      DrainingKeepsInv(s1, i, s.drains);
    } else if p.generation != c.expected {
      SettleKeepsInv(s, i, Rejected);
    } else {
      ClaimKeepsInv(s, i);
    }
  }

  lemma DrainingKeepsInv(s: State, i: nat, drain: nat)
    requires Inv(s) && i < |s.calls| && s.calls[i].phase == Waiting && PeerTurn(s, i)
    requires var p := s.peers[s.calls[i].peer]; !p.sessionOpen && p.status != Revoked
    ensures Inv(SetCall(s, i, s.calls[i].(expected := s.peers[s.calls[i].peer].generation, phase := Draining(drain))))
  {
    var t := SetCall(s, i, s.calls[i].(expected := s.peers[s.calls[i].peer].generation, phase := Draining(drain)));
    hide RegistryOk, ScopesOk, PeersOk, OwnerElected;
    assert QueueOk(t.calls, t.initTail);
    assert TurnsOk(t.calls);
  }

  ghost predicate NoneBusy(calls: seq<Call>, sid: nat) {
    forall i: nat :: i < |calls| && calls[i].peer == sid ==> !Busy(calls[i])
  }

  lemma SettledLeavesNoneBusy(calls: seq<Call>, i: nat, c: Call)
    requires TurnsOk(calls) && i < |calls| && Busy(calls[i]) && c.peer == calls[i].peer && c.phase.Settled?
    ensures NoneBusy(calls[i := c], c.peer)
  {
  }

  lemma CommitPeersOk(s: State, sid: nat, b: Binding)
    requires Inv(s) && sid < |s.peers| && Registered(s.peers, s.registry, sid)
    requires s.peers[sid].generation == b.peerGeneration && !s.peers[sid].sessionOpen
    requires NoneBusy(s.calls, sid)
    ensures var p := s.peers[sid];
            var peers := s.peers[sid := p.(binding := Some(b), sessionOpen := true, status := Open,
              order := Some(s.commitOrder + 1))];
            && RegistryOk(peers, s.registry) && ScopesOk(peers, None) && PeersOk(peers, s.commitOrder + 1)
            && OwnerElected(peers, s.registry, Some(Owner(b, p.peerId, s.handoff + 1)), s.handoff + 1)
            && CallsOk(peers, s.calls)
  {
    var p := s.peers[sid];
    var peers := s.peers[sid := p.(binding := Some(b), sessionOpen := true, status := Open,
      order := Some(s.commitOrder + 1))];
    forall k: nat | k < |peers| ensures Registered(peers, s.registry, k) <==> Registered(s.peers, s.registry, k) {}
    assert RegistryOk(peers, s.registry);
    hide TurnsOk, QueueOk, OpeningOk;
  }

  lemma InitializingHasTurn(s: State, i: nat)
    requires Inv(s) && i < |s.calls| && s.calls[i].phase == Initializing
    ensures CallOk(s.peers, s.calls[i]) && s.initTail != [] && s.initTail[0] == i && PeerTurn(s, i)
  {
    hide RegistryOk, ScopesOk, PeersOk, OwnerElected, QueueOk;
  }

  lemma CommitShape(s: State, i: nat)
    requires i < |s.calls| && s.calls[i].peer < |s.peers| && s.calls[i].attempt.Some?
    ensures var sid := s.calls[i].peer; var p := s.peers[sid]; var b := s.calls[i].attempt;
            Commit(s, i) == Settle(s, i, Opened).(
              peers := s.peers[sid := p.(binding := b, sessionOpen := true, status := Open,
                order := Some(s.commitOrder + 1))],
              commitOrder := s.commitOrder + 1, owner := Some(Owner(b.value, p.peerId, s.handoff + 1)),
                handoff := s.handoff + 1)
  {
  }

  lemma CommitKeepsInv(s: State, i: nat)
    requires Inv(s) && i < |s.calls| && s.calls[i].phase == Initializing && s.calls[i].attempt.Some?
    requires s.calls[i].peer < |s.peers| && Fresh(s, s.calls[i])
    ensures Inv(Commit(s, i))
  {
    InitializingHasTurn(s, i);
    CommitShape(s, i);
    SettledLeavesNoneBusy(s.calls, i, s.calls[i].(phase := Settled(Opened)));
    hide RegistryOk, ScopesOk, PeersOk, OwnerElected, CallsOk, TurnsOk, QueueOk, OpeningOk, Commit;
    SettleKeepsInv(s, i, Opened);
    CommitPeersOk(Settle(s, i, Opened), s.calls[i].peer, s.calls[i].attempt.value);
  }

  /** The catch block never finds a binding to drop. */
  lemma RollbackNeverFires(s: State, i: nat)
    requires Inv(s) && i < |s.calls| && s.calls[i].attempt.Some?
    ensures Rollback(s, i) == s
  {
  }

  lemma ConfigurePeersOk(s: State, p: Peer)
    requires Inv(s) && p.peerId !in s.registry && p == Peer(p.peerId, true, Active, false, 0, None, None, None)
    ensures var peers, registry := s.peers + [p], s.registry[p.peerId := |s.peers|];
            RegistryOk(peers, registry) && OwnerElected(peers, registry, s.owner, s.handoff) && CallsOk(peers, s.calls)
  {
    var peers, registry := s.peers + [p], s.registry[p.peerId := |s.peers|];
    forall k: nat | k < |s.peers| ensures Registered(peers, registry, k) <==> Registered(s.peers, s.registry, k) {}
    forall i: nat | i < |s.calls| ensures CallOk(peers, s.calls[i]) { assert CallOk(s.peers, s.calls[i]); }
    hide TurnsOk, QueueOk, OpeningOk, PeersOk, ScopesOk;
  }

  lemma ConfigureKeepsInv(s: State, id: string)
    requires Inv(s) && id !in s.registry
    ensures Inv(Configured(s, id))
  {
    hide TurnsOk, QueueOk, OpeningOk, RegistryOk, OwnerElected, CallsOk;
    ConfigurePeersOk(s, Peer(id, true, Active, false, 0, None, None, None));
  }

  lemma DeactivateKeepsInv(s: State, sid: nat)
    requires Inv(s) && sid < |s.peers|
    ensures InvBut(s.(peers := s.peers[sid := s.peers[sid].(scopeActive := false)]), Some(sid))
  {
    hide TurnsOk, QueueOk, OpeningOk;
    var peers := s.peers[sid := s.peers[sid].(scopeActive := false)];
    forall k: nat | k < |peers| ensures Registered(peers, s.registry, k) <==> Registered(s.peers, s.registry, k) {}
    assert RegistryOk(peers, s.registry);
    assert PeersOk(peers, s.commitOrder) && OwnerElected(peers, s.registry, s.owner, s.handoff);
  }

  lemma RevokeKeepsInv(s: State, sid: nat)
    requires Inv(s) && sid < |s.peers|
    ensures Inv(ScopeRevoked(s, sid))
  {
    DeactivateKeepsInv(s, sid);
    var s1 := s.(peers := s.peers[sid := s.peers[sid].(scopeActive := false)]);
    assert RegistryOk(s1.peers, s1.registry);
    if Registered(s1.peers, s1.registry, sid) {
      FenceKeepsInv(s1, sid, true, None);
    } else {
      assert s1.peers[sid].status == Revoked;
    }
    hide PeersOk, OwnerElected, CallsOk, TurnsOk, QueueOk, OpeningOk;
  }

  lemma DrainKeepsInv(s: State, sid: nat, d: nat)
    requires Inv(s) && sid < |s.peers|
    ensures Inv(DrainSettled(s, sid, d))
  {
    var t := DrainSettled(s, sid, d);
    if t.peers != s.peers {
      QuietPeer(s, sid, t.peers[sid]);
    }
  }

  lemma CallOpenKeepsInv(s: State, sid: nat, leaseId: string, aborted: bool)
    requires Inv(s) && sid < |s.peers| && Registered(s.peers, s.registry, sid)
    ensures Inv(OpenCalled(s, sid, leaseId, aborted))
  {
    var t := OpenCalled(s, sid, leaseId, aborted);
    assert QueueOk(t.calls, t.initTail);
  }

  lemma InitializationStartKeepsInv(s: State, i: nat)
    requires Inv(s) && Enabled(s, StartInitialization(i))
    ensures Inv(InitializationStarted(s, i))
  {
    if !Fresh(s, s.calls[i]) {
      SettleKeepsInv(s, i, Rejected);
    } else {
      var c := s.calls[i].(phase := Initializing);
      CallUpdate(s.peers, s.calls, i, c);
      assert QueueOk(s.calls[i := c], s.initTail);
    }
  }

  lemma InitializationFinishKeepsInv(s: State, i: nat, initialized: bool, exposed: bool)
    requires Inv(s) && Enabled(s, FinishInitialization(i, initialized, exposed))
    ensures Inv(InitializationFinished(s, i, initialized, exposed))
  {
    RollbackNeverFires(s, i);
    if initialized && Fresh(s, s.calls[i]) && exposed {
      CommitKeepsInv(s, i);
    } else {
      SettleKeepsInv(s, i, Rejected);
    }
  }

  lemma ResumeKeepsInv(s: State, i: nat)
    requires Inv(s) && Enabled(s, ResumeAfterDrain(i))
    ensures Inv(DrainResumed(s, i))
  {
    var p := s.peers[s.calls[i].peer];
    if p.generation != s.calls[i].expected || p.status == Revoked {
      SettleKeepsInv(s, i, Rejected);
    } else {
      ClaimKeepsInv(s, i);
    }
  }

  lemma AbortKeepsInv(s: State, i: nat)
    requires Inv(s) && i < |s.calls|
    ensures Inv(SetCall(s, i, s.calls[i].(aborted := true)))
  {
    CallUpdate(s.peers, s.calls, i, s.calls[i].(aborted := true));
    assert QueueOk(s.calls[i := s.calls[i].(aborted := true)], s.initTail);
    hide RegistryOk, ScopesOk, PeersOk, OwnerElected, CallsOk, TurnsOk, QueueOk;
  }

  lemma CloseKeepsInv(s: State, sid: nat, b: Binding)
    requires Inv(s) && sid < |s.peers| && s.peers[sid].scopeActive
    ensures Inv(Fence(s, sid, false, Some(b)).0)
  {
    if Fence(s, sid, false, Some(b)).1 {
      FenceKeepsInv(s, sid, false, Some(b));
    }
  }

  /** Every step of the worker keeps the invariant. */
  lemma StepKeepsInv(s: State, e: Event)
    requires Inv(s)
    ensures Inv(Step(s, e))
  {
    if Enabled(s, e) {
      match e
      case Configure(id) => ConfigureKeepsInv(s, id);
      case RevokeScope(sid) => RevokeKeepsInv(s, sid);
      case CallOpen(id, lease, aborted) => CallOpenKeepsInv(s, s.registry[id], lease, aborted);
      case CallClose(id, b) => CloseKeepsInv(s, s.registry[id], b);
      case Abort(i) => AbortKeepsInv(s, i);
      case StartOperation(i) => OperationKeepsInv(s, i);
      case SettleDrain(sid, d) => DrainKeepsInv(s, sid, d);
      case ResumeAfterDrain(i) => ResumeKeepsInv(s, i);
      case StartInitialization(i) => InitializationStartKeepsInv(s, i);
      case FinishInitialization(i, initialized, exposed) => InitializationFinishKeepsInv(s, i, initialized, exposed);
      case ChangeEpoch(_) =>
    }
  }
}
