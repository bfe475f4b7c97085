/** Page peers, their sessions and the election of the storage I/O owner, as the
    coordinator worker runs them. A transition is one stretch of code between two
    awaits. `peers` is the heap of CoordinatorPeerState objects, indexed by object
    identity; `registry` is the worker's `coordinatorPeers` map. */
module PeerSessions {
  import opened Prelude

  datatype Binding = Binding(peerGeneration: nat, sessionEpoch: string, leaseId: string)

  datatype Status = Active | Open | Closing | Revoked

  datatype Peer = Peer(
    peerId: string,
    scopeActive: bool,
    status: Status,
    sessionOpen: bool,
    generation: nat,
    binding: Option<Binding>,
    order: Option<nat>,
    drain: Option<nat>)

  datatype Owner = Owner(binding: Binding, peerId: string, commitOrder: nat)

  datatype Outcome = Opened | AlreadyOpen | Rejected

  /** Where a call of session.open is waiting. */
  datatype Phase =
    | Waiting                     // behind earlier operations of the same peer
    | Draining(drain: nat)        // replaced an old lease, awaits its drain
    | InitQueued                  // claimed a generation, behind the global queue
    | Initializing                // awaits the shared initialization
    | Settled(outcome: Outcome)

  datatype Call = Call(
    peer: nat,
    leaseId: string,
    expected: nat,
    aborted: bool,
    attempt: Option<Binding>,
    phase: Phase)

  datatype State = State(
    peers: seq<Peer>,
    registry: map<string, nat>,
    owner: Option<Owner>,
    commitOrder: nat,
    handoff: nat,
    sessionEpoch: string,
    calls: seq<Call>,
    initTail: seq<nat>,
    opening: Option<nat>,
    drains: nat,
    drained: set<nat>)

  datatype Event =
    | Configure(peerId: string)
    | RevokeScope(peer: nat)
    | CallOpen(peerId: string, leaseId: string, aborted: bool)
    | CallClose(peerId: string, binding: Binding)
    | Abort(call: nat)
    | StartOperation(call: nat)
    | SettleDrain(peer: nat, drain: nat)
    | ResumeAfterDrain(call: nat)
    | StartInitialization(call: nat)
    | FinishInitialization(call: nat, initialized: bool, exposed: bool)
    | ChangeEpoch(epoch: string)

  // ------------------------------------------------------------ transitions

  predicate Registered(peers: seq<Peer>, registry: map<string, nat>, sid: nat)
    requires sid < |peers|
  {
    peers[sid].peerId in registry && registry[peers[sid].peerId] == sid
  }

  predicate Candidate(s: State, sid: nat)
    requires sid < |s.peers|
  {
    var p := s.peers[sid];
    && Registered(s.peers, s.registry, sid)
    && p.status == Open && p.sessionOpen && p.scopeActive && p.binding.Some? && p.order.Some?
  }

  /** The candidate below `n` with the greatest commit order. */
  function Newest(s: State, n: nat): (r: Option<nat>)
    requires n <= |s.peers|
    ensures r.Some? ==> r.value < n && Candidate(s, r.value)
    ensures r.None? ==> forall k: nat :: k < n ==> !Candidate(s, k)
    ensures r.Some? ==> forall k: nat :: k < n && Candidate(s, k) ==>
        s.peers[k].order.value <= s.peers[r.value].order.value
  {
    if n == 0 then None
    else
      var r := Newest(s, n - 1);
      if Candidate(s, n - 1) && (r.None? || s.peers[r.value].order.value <= s.peers[n - 1].order.value)
      then Some(n - 1) else r
  }

  function SelectOwner(s: State): State {
    match Newest(s, |s.peers|)
    case None => s.(owner := None)
    case Some(k) =>
      s.(owner := Some(Owner(s.peers[k].binding.value, s.peers[k].peerId, s.handoff + 1)),
         handoff := s.handoff + 1)
  }

  function Fenced(p: Peer, physical: bool, drain: nat): Peer {
    p.(generation := p.generation + 1, sessionOpen := false,
       status := if physical then Revoked else Closing,
       binding := None, order := None, drain := Some(drain))
  }

  predicate Owns(s: State, sid: nat)
    requires sid < |s.peers|
  {
    s.owner.Some? && s.owner.value.peerId == s.peers[sid].peerId && s.peers[sid].binding == Some(s.owner.value.binding)
  }

  /** Takes the session from the peer; if that peer owned storage I/O, a survivor is elected. */
  function Withdraw(s: State, sid: nat, physical: bool): State
    requires sid < |s.peers|
  {
    var u := s.(peers := s.peers[sid := Fenced(s.peers[sid], physical, s.drains)], drains := s.drains + 1);
    if Owns(s, sid) then SelectOwner(u.(owner := None)) else u
  }

  /** fenceCoordinatorPeerSession: the new state and whether the fence was raised. */
  function Fence(s: State, sid: nat, physical: bool, binding: Option<Binding>): (State, bool)
    requires sid < |s.peers|
  {
    var p := s.peers[sid];
    if p.status == Revoked || (binding.Some? && p.binding != binding) then (s, false)
    else
      var w := Withdraw(s, sid, physical);
      (if physical then w.(registry := w.registry - {p.peerId}) else w, true)
  }

  function SetCall(s: State, i: nat, c: Call): State
    requires i < |s.calls|
  {
    s.(calls := s.calls[i := c])
  }

  function Settle(s: State, i: nat, o: Outcome): State
    requires i < |s.calls|
  {
    s.(calls := s.calls[i := s.calls[i].(phase := Settled(o))],
       initTail := if s.initTail != [] && s.initTail[0] == i then s.initTail[1..] else s.initTail,
       opening := if s.opening == Some(i) then None else s.opening)
  }

  /** The open takes the next generation and joins the global initialization queue. */
  function Claim(s: State, i: nat): State
    requires i < |s.calls| && s.calls[i].peer < |s.peers|
  {
    var c := s.calls[i];
    var p := s.peers[c.peer];
    s.(peers := s.peers[c.peer := p.(generation := c.expected + 1, status := Active)],
       calls := s.calls[i := c.(attempt := Some(Binding(c.expected + 1, s.sessionEpoch, c.leaseId)),
         phase := InitQueued)],
       initTail := s.initTail + [i])
  }

  function OperationStarted(s: State, i: nat): State
    requires i < |s.calls| && s.calls[i].peer < |s.peers|
  {
    var c := s.calls[i];
    var p := s.peers[c.peer];
    if p.sessionOpen && p.status == Open && p.binding.Some? && p.binding.value.leaseId == c.leaseId then
      Settle(s, i, AlreadyOpen)
    else if p.sessionOpen then
      var (s1, fenced) := Fence(s, c.peer, false, p.binding);
      if !fenced then Settle(s1, i, Rejected)
      else SetCall(s1, i, c.(expected := s1.peers[c.peer].generation, phase := Draining(s.drains)))
    else if p.generation != c.expected then Settle(s, i, Rejected)
    else Claim(s, i)
  }

  predicate Fresh(s: State, c: Call)
    requires c.peer < |s.peers| && c.attempt.Some?
  {
    && !c.aborted
    && Registered(s.peers, s.registry, c.peer)
    && s.peers[c.peer].scopeActive
    && s.peers[c.peer].generation == c.attempt.value.peerGeneration
  }

  function Commit(s: State, i: nat): State
    requires i < |s.calls| && s.calls[i].peer < |s.peers| && s.calls[i].attempt.Some?
  {
    var c := s.calls[i];
    var p := s.peers[c.peer];
    Settle(s.(peers := s.peers[c.peer :=
      p.(binding := c.attempt, sessionOpen := true, status := Open, order := Some(s.commitOrder + 1))],
              commitOrder := s.commitOrder + 1,
              owner := Some(Owner(c.attempt.value, p.peerId, s.handoff + 1)),
              handoff := s.handoff + 1), i, Opened)
  }

  /** The catch block of the open: drops a binding of its own lease that never opened. */
  function Rollback(s: State, i: nat): State
    requires i < |s.calls| && s.calls[i].peer < |s.peers| && s.calls[i].attempt.Some?
  {
    var c := s.calls[i];
    var p := s.peers[c.peer];
    if !p.sessionOpen && p.binding.Some? && p.binding.value.leaseId == c.attempt.value.leaseId
    then s.(peers := s.peers[c.peer := p.(binding := None, status := Active, order := None)])
    else s
  }

  predicate Unsettled(c: Call) { !c.phase.Settled? }

  /** The per-peer queue: every earlier operation of the same peer has settled. */
  ghost predicate PeerTurn(s: State, i: nat)
    requires i < |s.calls|
  {
    forall j: nat :: j < i && s.calls[j].peer == s.calls[i].peer ==> !Unsettled(s.calls[j])
  }

  ghost predicate Enabled(s: State, e: Event) {
    match e
    case Configure(id) => id !in s.registry
    case RevokeScope(sid) => sid < |s.peers| && s.peers[sid].scopeActive
    case CallOpen(id, _, _) => id in s.registry && s.registry[id] < |s.peers| && s.peers[s.registry[id]].scopeActive
    case CallClose(id, _) => id in s.registry && s.registry[id] < |s.peers| && s.peers[s.registry[id]].scopeActive
    case Abort(i) => i < |s.calls|
    case StartOperation(i) => i < |s.calls| && s.calls[i].peer < |s.peers| && s.calls[i].phase == Waiting
      && PeerTurn(s, i)
    case SettleDrain(sid, d) => sid < |s.peers| && d < s.drains && d !in s.drained
    case ResumeAfterDrain(i) =>
      i < |s.calls| && s.calls[i].peer < |s.peers| && s.calls[i].phase.Draining? && s.calls[i].phase.drain in s.drained
    case StartInitialization(i) =>
      && i < |s.calls| && s.calls[i].peer < |s.peers| && s.calls[i].attempt.Some?
      && s.calls[i].phase == InitQueued && s.initTail != [] && s.initTail[0] == i
    case FinishInitialization(i, _, _) =>
      i < |s.calls| && s.calls[i].peer < |s.peers| && s.calls[i].attempt.Some? && s.calls[i].phase == Initializing
    case ChangeEpoch(_) => true
  }

  function Configured(s: State, id: string): State {
    s.(peers := s.peers + [Peer(id, true, Active, false, 0, None, None, None)], registry := s.registry[id := |s.peers|])
  }

  function ScopeRevoked(s: State, sid: nat): State
    requires sid < |s.peers|
  {
    var s1 := s.(peers := s.peers[sid := s.peers[sid].(scopeActive := false)]);
    if Registered(s1.peers, s1.registry, sid) then Fence(s1, sid, true, None).0 else s1
  }

  function OpenCalled(s: State, sid: nat, leaseId: string, aborted: bool): State
    requires sid < |s.peers|
  {
    s.(calls := s.calls + [Call(sid, leaseId, s.peers[sid].generation, aborted, None, Waiting)])
  }

  function DrainSettled(s: State, sid: nat, d: nat): State
    requires sid < |s.peers|
  {
    var p := s.peers[sid];
    var s1 := s.(drained := s.drained + {d});
    if Registered(s.peers, s.registry, sid) && p.status == Closing
    then s1.(peers := s.peers[sid := p.(status := Active, drain := None)]) else s1
  }

  function DrainResumed(s: State, i: nat): State
    requires i < |s.calls| && s.calls[i].peer < |s.peers|
  {
    var p := s.peers[s.calls[i].peer];
    if p.generation != s.calls[i].expected || p.status == Revoked then Settle(s, i, Rejected) else Claim(s, i)
  }

  function InitializationStarted(s: State, i: nat): State
    requires i < |s.calls| && s.calls[i].peer < |s.peers| && s.calls[i].attempt.Some?
  {
    if !Fresh(s, s.calls[i]) then Settle(s, i, Rejected)
    else s.(calls := s.calls[i := s.calls[i].(phase := Initializing)], opening := Some(i))
  }

  function InitializationFinished(s: State, i: nat, initialized: bool, exposed: bool): State
    requires i < |s.calls| && s.calls[i].peer < |s.peers| && s.calls[i].attempt.Some?
  {
    if initialized && Fresh(s, s.calls[i]) && exposed then Commit(s, i) else Settle(Rollback(s, i), i, Rejected)
  }

  /** One step of the worker. An event that is not enabled cannot occur; it leaves the state alone. */
  ghost function Step(s: State, e: Event): State {
    if !Enabled(s, e) then s else
    match e
    case Configure(id) => Configured(s, id)
    case RevokeScope(sid) => ScopeRevoked(s, sid)
    case CallOpen(id, lease, aborted) => OpenCalled(s, s.registry[id], lease, aborted)
    case CallClose(id, b) => Fence(s, s.registry[id], false, Some(b)).0
    case Abort(i) => SetCall(s, i, s.calls[i].(aborted := true))
    case StartOperation(i) => OperationStarted(s, i)
    case SettleDrain(sid, d) => DrainSettled(s, sid, d)
    case ResumeAfterDrain(i) => DrainResumed(s, i)
    case StartInitialization(i) => InitializationStarted(s, i)
    case FinishInitialization(i, initialized, exposed) => InitializationFinished(s, i, initialized, exposed)
    case ChangeEpoch(epoch) => s.(sessionEpoch := epoch)
  }

  function Initial(epoch: string): State {
    State([], map[], None, 0, 0, epoch, [], [], None, 0, {})
  }

  ghost function Run(s: State, es: seq<Event>): State {
    if es == [] then s else Step(Run(s, es[..|es| - 1]), es[|es| - 1])
  }
}
