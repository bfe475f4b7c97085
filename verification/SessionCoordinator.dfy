/** The worker's module-level variables and the operations that update them in place,
    each proved against its transition in PeerSessions. */
module SessionCoordinator {
  import opened Prelude
  import opened PeerSessions
  import opened PeerInvariant

  class Coordinator {
    var peers: seq<Peer>
    var registry: map<string, nat>
    var owner: Option<Owner>
    var commitOrder: nat
    var handoff: nat
    var sessionEpoch: string
    var calls: seq<Call>
    var initTail: seq<nat>
    var opening: Option<nat>
    var drains: nat
    var drained: set<nat>

    function View(): State
      reads this
    {
      State(peers, registry, owner, commitOrder, handoff, sessionEpoch, calls, initTail, opening, drains, drained)
    }

    constructor (epoch: string)
      ensures View() == Initial(epoch) && Inv(View())
    {
      peers, registry, owner, commitOrder, handoff := [], map[], None, 0, 0;
      sessionEpoch, calls, initTail, opening, drains, drained := epoch, [], [], None, 0, {};
    }

    /** selectCoordinatorStorageIoOwner. */
    method SelectStorageIoOwner()
      modifies this
      ensures View() == SelectOwner(old(View()))
    {
      var selected: Option<nat> := None;
      for k := 0 to |peers|
        invariant selected == Newest(old(View()), k)
      {
        var p := peers[k];
        var candidate := p.peerId in registry && registry[p.peerId] == k
          && p.status == Open && p.sessionOpen && p.scopeActive && p.binding.Some? && p.order.Some?;
        if candidate && (selected.None? || peers[selected.value].order.value <= p.order.value) {
          selected := Some(k);
        }
      }
      match selected {
        case None => owner := None;
        case Some(k) =>
          handoff := handoff + 1;
          owner := Some(Owner(peers[k].binding.value, peers[k].peerId, handoff));
      }
    }

    /** fenceCoordinatorPeerSession. */
    method FencePeer(sid: nat, physical: bool, binding: Option<Binding>) returns (fenced: bool)
      requires sid < |peers|
      modifies this
      ensures (View(), fenced) == Fence(old(View()), sid, physical, binding)
    {
      var p := peers[sid];
      if p.status == Revoked { return false; }
      if binding.Some? && p.binding != binding { return false; }
      var owned := owner.Some? && owner.value.peerId == p.peerId && p.binding == Some(owner.value.binding);
      peers := peers[sid := p.(generation := p.generation + 1, sessionOpen := false, status := if physical then
        Revoked else Closing,
                               binding := None, order := None, drain := Some(drains))];
      drains := drains + 1;
      if owned {
        owner := None;
        SelectStorageIoOwner();
      }
      if physical { registry := registry - {p.peerId}; }
      return true;
    }

    /** A physical peer connects under an unused id. */
    method ConfigurePeer(peerId: string)
      requires Inv(View()) && Enabled(View(), Configure(peerId))
      modifies this
      ensures Inv(View()) && View() == Configured(old(View()), peerId)
    {
      ConfigureKeepsInv(View(), peerId);
      registry := registry[peerId := |peers|];
      peers := peers + [Peer(peerId, true, Active, false, 0, None, None, None)];
    }

    /** The scope of a physical peer is revoked and its callback runs. */
    method OnRevoke(sid: nat)
      requires Inv(View()) && Enabled(View(), RevokeScope(sid))
      modifies this
      ensures Inv(View()) && View() == ScopeRevoked(old(View()), sid)
    {
      RevokeKeepsInv(View(), sid);
      peers := peers[sid := peers[sid].(scopeActive := false)];
      if peers[sid].peerId in registry && registry[peers[sid].peerId] == sid {
        var _ := FencePeer(sid, true, None);
      }
    }

    /** session.open: the call reads its freshness baseline and joins the peer's queue. */
    method OpenSession(peerId: string, leaseId: string, aborted: bool) returns (call: nat)
      requires Inv(View()) && Enabled(View(), CallOpen(peerId, leaseId, aborted))
      modifies this
      ensures Inv(View()) && View() == OpenCalled(old(View()), old(registry[peerId]), leaseId, aborted)
          && call == old(|calls|)
    {
      CallOpenKeepsInv(View(), registry[peerId], leaseId, aborted);
      var sid := registry[peerId];
      call := |calls|;
      calls := calls + [Call(sid, leaseId, peers[sid].generation, aborted, None, Waiting)];
    }

    /** session.close: an exact-match fence. */
    method CloseSession(peerId: string, binding: Binding)
      requires Inv(View()) && Enabled(View(), CallClose(peerId, binding))
      modifies this
      ensures Inv(View()) && View() == Fence(old(View()), old(registry[peerId]), false, Some(binding)).0
    {
      CloseKeepsInv(View(), registry[peerId], binding);
      var _ := FencePeer(registry[peerId], false, Some(binding));
    }

    method SettleCall(i: nat, outcome: Outcome)
      requires i < |calls|
      modifies this
      ensures View() == Settle(old(View()), i, outcome)
    {
      calls := calls[i := calls[i].(phase := Settled(outcome))];
      if initTail != [] && initTail[0] == i { initTail := initTail[1..]; }
      if opening == Some(i) { opening := None; }
    }

    method ClaimGeneration(i: nat)
      requires i < |calls| && calls[i].peer < |peers|
      modifies this
      ensures View() == Claim(old(View()), i)
    {
      var c := calls[i];
      var generation := c.expected + 1;
      peers := peers[c.peer := peers[c.peer].(generation := generation, status := Active)];
      calls := calls[i := c.(attempt := Some(Binding(generation, sessionEpoch, c.leaseId)), phase := InitQueued)];
      initTail := initTail + [i];
    }

    /** The body of the open once the peer's earlier operations have settled. */
    method RunOperation(i: nat)
      requires Inv(View()) && Enabled(View(), StartOperation(i))
      modifies this
      ensures Inv(View()) && View() == OperationStarted(old(View()), i)
    {
      assert Coincide(peers[calls[i].peer]);
      hide RegistryOk, ScopesOk, PeersOk, OwnerElected, TurnsOk, QueueOk, OpeningOk;
      OperationKeepsInv(View(), i);
      var c := calls[i];
      var p := peers[c.peer];
      if p.sessionOpen && p.status == Open && p.binding.Some? && p.binding.value.leaseId == c.leaseId {
        SettleCall(i, AlreadyOpen);
        return;
      }
      if p.sessionOpen {
        var drain := drains;
        var fenced := FencePeer(c.peer, false, p.binding);
        assert fenced;  // the lease being replaced is the current one
        calls := calls[i := c.(expected := peers[c.peer].generation, phase := Draining(drain))];
        return;
      }
      if p.generation != c.expected {
        SettleCall(i, Rejected);
      } else {
        ClaimGeneration(i);
      }
    }

    /** The drain of a fence settles; a closing peer becomes usable again. */
    method OnDrained(sid: nat, drain: nat)
      requires Inv(View()) && Enabled(View(), SettleDrain(sid, drain))
      modifies this
      ensures Inv(View()) && View() == DrainSettled(old(View()), sid, drain)
    {
      hide RegistryOk, ScopesOk, PeersOk, OwnerElected, TurnsOk, QueueOk, OpeningOk;
      DrainKeepsInv(View(), sid, drain);
      drained := drained + {drain};
      var p := peers[sid];
      if p.peerId in registry && registry[p.peerId] == sid && p.status == Closing {
        peers := peers[sid := p.(status := Active, drain := None)];
      }
    }

    /** A replacing open continues after the old lease has drained. */
    method ResumeOperation(i: nat)
      requires Inv(View()) && Enabled(View(), ResumeAfterDrain(i))
      modifies this
      ensures Inv(View()) && View() == DrainResumed(old(View()), i)
    {
      hide RegistryOk, ScopesOk, PeersOk, OwnerElected, TurnsOk, QueueOk, OpeningOk;
      ResumeKeepsInv(View(), i);
      var p := peers[calls[i].peer];
      if p.generation != calls[i].expected || p.status == Revoked {
        SettleCall(i, Rejected);
      } else {
        ClaimGeneration(i);
      }
    }

    /** assertCoordinatorSessionOpenFresh, as a test. */
    method IsFresh(i: nat) returns (current: bool)
      requires i < |calls| && calls[i].peer < |peers| && calls[i].attempt.Some?
      ensures current == Fresh(View(), calls[i])
    {
      var c := calls[i];
      if c.aborted { return false; }
      var p := peers[c.peer];
      current := p.peerId in registry && registry[p.peerId] == c.peer && p.scopeActive
        && p.generation == c.attempt.value.peerGeneration;
    }

    method BeginInitialization(i: nat)
      requires Inv(View()) && Enabled(View(), StartInitialization(i))
      modifies this
      ensures Inv(View()) && View() == InitializationStarted(old(View()), i)
    {
      hide RegistryOk, ScopesOk, PeersOk, OwnerElected, TurnsOk, QueueOk, OpeningOk;
      InitializationStartKeepsInv(View(), i);
      var current := IsFresh(i);
      if !current {
        SettleCall(i, Rejected);
      } else {
        calls := calls[i := calls[i].(phase := Initializing)];
        opening := Some(i);
      }
    }

    /** The synchronous commit of an open: session, commit order and storage owner together. */
    method CommitSession(i: nat)
      requires i < |calls| && calls[i].peer < |peers| && calls[i].attempt.Some?
      modifies this
      ensures View() == Commit(old(View()), i)
    {
      var c := calls[i];
      commitOrder := commitOrder + 1;
      peers := peers[c.peer := peers[c.peer].(binding := c.attempt, sessionOpen := true, status := Open,
        order := Some(commitOrder))];
      handoff := handoff + 1;
      owner := Some(Owner(c.attempt.value, peers[c.peer].peerId, handoff));
      SettleCall(i, Opened);
    }

    /** The catch block of an open. */
    method RollbackSession(i: nat)
      requires i < |calls| && calls[i].peer < |peers| && calls[i].attempt.Some?
      modifies this
      ensures View() == Settle(Rollback(old(View()), i), i, Rejected)
    {
      var c := calls[i];
      var p := peers[c.peer];
      if !p.sessionOpen && p.binding.Some? && p.binding.value.leaseId == c.attempt.value.leaseId {
        peers := peers[c.peer := p.(binding := None, status := Active, order := None)];
      }
      SettleCall(i, Rejected);
    }

    /** The initialization settles: the open commits, or its catch block runs. */
    method EndInitialization(i: nat, initialized: bool, exposed: bool)
      requires Inv(View()) && Enabled(View(), FinishInitialization(i, initialized, exposed))
      modifies this
      ensures Inv(View()) && View() == InitializationFinished(old(View()), i, initialized, exposed)
    {
      hide Inv, Commit, Rollback, Settle;
      InitializationFinishKeepsInv(View(), i, initialized, exposed);
      var current := IsFresh(i);
      if initialized && current && exposed {
        CommitSession(i);
      } else {
        RollbackSession(i);
      }
    }

    /** The caller's signal aborts. */
    method AbortCall(i: nat)
      requires Inv(View()) && i < |calls|
      modifies this
      ensures Inv(View()) && View() == SetCall(old(View()), i, old(calls[i]).(aborted := true))
    {
      AbortKeepsInv(View(), i);
      calls := calls[i := calls[i].(aborted := true)];
    }
  }
}
