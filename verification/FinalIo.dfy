/** The wrapper around every final I/O call: admission, gate lease, I/O lease and audit handle are
    taken on the way in and given back on every way out. One step per stretch between awaits. */
module FinalIo {
  import opened Prelude
  import A = FinalIoAudit

  datatype Kind = Read | Write

  datatype VaultStatus = Booting | Uninitialized | Locked | Unlocked | Fatal

  datatype Session = Session(epoch: string, runGeneration: string, vault: VaultStatus)

  datatype Options = Options(allowLocalLock: bool, allowLocalOwnerTransition: bool, audit: Option<string>,
    durable: bool)

  datatype Outcome = Succeeded | Failed

  datatype Phase =
    | AwaitingAdmission
    | Entering                       // awaits the upgrade session and the authority check
    | AwaitingIoLease
    | Running                        // the body runs
    | Confirming                     // awaits the authority check after the body
    | Releasing(outcome: Outcome)    // awaits the release of the I/O lease
    | Done(outcome: Outcome)

  /** The gate lease, with the session facts read just before it was admitted. */
  datatype GateLease = GateLease(gate: nat, epoch: string, runGeneration: string)

  /** One call and its local variables. */
  datatype Call = Call(
    kind: Kind,
    options: Options,
    phase: Phase,
    aborted: bool,
    admitted: bool,
    lease: Option<GateLease>,
    ioLease: bool,
    audit: Option<nat>)

  datatype Resource = Admission | Gate | IoLease | Audit

  datatype Happening = Took(call: nat, what: Resource) | Gave(call: nat, what: Resource)

  /** `gates` tells of each upgrade gate whether it is still active; `current` is the worker's gate. */
  datatype State = State(
    gates: seq<bool>,
    current: Option<nat>,
    session: Session,
    calls: seq<Call>,
    ledger: A.Ledger,
    log: seq<Happening>)

  datatype Event =
    | Start(kind: Kind, options: Options)
    | Admit(call: nat, ok: bool)
    | Enter(call: nat, ok: bool)
    | IoLeaseAnswers(call: nat, ok: bool)
    | BodyEnds(call: nat, ok: bool)
    | AuthorityAnswers(call: nat, ok: bool)
    | ReleaseEnds(call: nat, ok: bool)
    | Abort(call: nat)
    | CloseSession
    | ReplaceGate
    | RejectHandshake
    | ChangeSession(session: Session)

  // ------------------------------------------------------------ transitions

  predicate GateActive(s: State, g: nat) { g < |s.gates| && s.gates[g] }

  /** Closing a gate or aborting the call deactivates its lease. */
  predicate LeaseActive(s: State, c: Call) { c.lease.Some? && GateActive(s, c.lease.value.gate) && !c.aborted }

  function Put(s: State, i: nat, c: Call): State
    requires i < |s.calls|
  {
    s.(calls := s.calls[i := c])
  }

  function Logged(s: State, h: Happening): State { s.(log := s.log + [h]) }

  /** The call settles: the gate lease goes back, then the wallet admission. */
  function Settled(s: State, i: nat, outcome: Outcome): State
    requires i < |s.calls|
  {
    var c := s.calls[i];
    Put(s, i, c.(phase := Done(outcome))).(
      log := s.log + (if c.lease.Some? then [Gave(i, Gate)] else [])
        + (if c.admitted then [Gave(i, Admission)] else []))
  }

  /** The finally block up to the await of the I/O lease's release. */
  function Leaving(s: State, i: nat, outcome: Outcome): State
    requires i < |s.calls|
  {
    var c := s.calls[i];
    Put(s, i, c.(phase := Releasing(outcome))).(log := s.log + (if c.ioLease then [Gave(i, IoLease)] else []))
  }

  function Audited(s: State, i: nat, outcome: A.AuditOutcome): State
    requires i < |s.calls|
  {
    match s.calls[i].audit
    case None => s
    case Some(h) => if h < |s.ledger.handles| then
      s.(ledger := A.Finished(s.ledger, h, outcome), log := s.log + [Gave(i, Audit)]) else s
  }

  /** The catch block, then the finally block. */
  function Failing(s: State, i: nat): State
    requires i < |s.calls|
  {
    Leaving(Audited(s, i, if s.calls[i].kind == Write then A.Unknown else A.Failed), i, Failed)
  }

  /** The second check of the lease, and the beginning of the audited body. */
  function Body(s: State, i: nat): State
    requires i < |s.calls|
  {
    var c := s.calls[i];
    if !LeaseActive(s, c) then Failing(s, i)
    else match c.options.audit
      case None => Put(s, i, c.(phase := Running))
      case Some(op) =>
        Put(s, i, c.(phase := Running, audit := Some(|s.ledger.handles|))).(ledger := A.Begun(s.ledger, op),
          log := s.log + [Took(i, Audit)])
  }

  function Entered(s: State, i: nat, ok: bool): State
    requires i < |s.calls|
  {
    if !ok || s.current.None? || !GateActive(s, s.current.value) then Settled(s, i, Failed)
    else
      var lease := GateLease(s.current.value, s.session.epoch, s.session.runGeneration);
      var c := s.calls[i].(lease := Some(lease));
      var s1 := Logged(Put(s, i, c), Took(i, Gate));
      if !LeaseActive(s1, c) then Failing(s1, i)
      else if c.options.durable then Put(s1, i, c.(phase := AwaitingIoLease))
      else Body(s1, i)
  }

  function IoLeaseAnswered(s: State, i: nat, ok: bool): State
    requires i < |s.calls|
  {
    if !ok then Failing(s, i) else Body(Logged(Put(s, i, s.calls[i].(ioLease := true)), Took(i, IoLease)), i)
  }

  predicate GateReplaced(s: State, c: Call) {
    c.lease.Some? && !GateActive(s, c.lease.value.gate) && s.current != Some(c.lease.value.gate)
  }

  predicate LocalLockReplaced(s: State, c: Call) {
    c.options.allowLocalLock && GateReplaced(s, c) && (s.session.vault == Locked || s.session.vault == Uninitialized)
  }

  predicate OwnerTransitionReplaced(s: State, c: Call) {
    && c.options.allowLocalOwnerTransition && GateReplaced(s, c) && s.session.vault == Unlocked
    && (s.session.epoch != c.lease.value.epoch || s.session.runGeneration != c.lease.value.runGeneration)
  }

  function BodyEnded(s: State, i: nat, ok: bool): State
    requires i < |s.calls|
  {
    var c := s.calls[i];
    if !ok || (!LocalLockReplaced(s, c) && !OwnerTransitionReplaced(s, c) && !LeaseActive(s, c)) then Failing(s, i)
    else Put(s, i, c.(phase := Confirming))
  }

  function Confirmed(s: State, i: nat, ok: bool): State
    requires i < |s.calls|
  {
    if ok then Leaving(Audited(s, i, A.Completed), i, Succeeded) else Failing(s, i)
  }

  function Closed(s: State): State {
    if s.current.Some? && s.current.value < |s.gates| then s.(gates := s.gates[s.current.value := false]) else s
  }

  predicate Enabled(s: State, e: Event) {
    match e
    case Admit(i, _) => i < |s.calls| && s.calls[i].phase == AwaitingAdmission
    case Enter(i, _) => i < |s.calls| && s.calls[i].phase == Entering
    case IoLeaseAnswers(i, _) => i < |s.calls| && s.calls[i].phase == AwaitingIoLease
    case BodyEnds(i, _) => i < |s.calls| && s.calls[i].phase == Running
    case AuthorityAnswers(i, _) => i < |s.calls| && s.calls[i].phase == Confirming
    case ReleaseEnds(i, _) => i < |s.calls| && s.calls[i].phase.Releasing?
    case Abort(i) => i < |s.calls|
    case _ => true
  }

  function Step(s: State, e: Event): State {
    if !Enabled(s, e) then s
    else match e
      case Start(kind, options) => s.(calls := s.calls
        + [Call(kind, options, AwaitingAdmission, false, false, None, false, None)])
      case Admit(i, ok) =>
        if ok then Logged(Put(s, i, s.calls[i].(phase := Entering, admitted := true)), Took(i, Admission))
          else Settled(s, i, Failed)
      case Enter(i, ok) => Entered(s, i, ok)
      case IoLeaseAnswers(i, ok) => IoLeaseAnswered(s, i, ok)
      case BodyEnds(i, ok) => BodyEnded(s, i, ok)
      case AuthorityAnswers(i, ok) => Confirmed(s, i, ok)
      case ReleaseEnds(i, ok) => Settled(s, i, if ok then s.calls[i].phase.outcome else Failed)
      case Abort(i) => Put(s, i, s.calls[i].(aborted := true))
      case CloseSession => Closed(s).(current := None)
      case ReplaceGate => Closed(s).(gates := Closed(s).gates + [true], current := Some(|s.gates|))
      case RejectHandshake => Closed(s)
      case ChangeSession(session) => s.(session := session)
  }

  function Initial(session: Session): State { State([], None, session, [], A.Ledger(map[], []), []) }

  function Run(session: Session, es: seq<Event>): State {
    if es == [] then Initial(session) else Step(Run(session, es[..|es| - 1]), es[|es| - 1])
  }
}
