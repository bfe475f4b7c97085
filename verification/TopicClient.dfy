/** The page client's projection of topic events: revision trackers, caches, and the worker
    unit events that arrive before the session that they belong to is confirmed. */
module TopicClient {
  import opened Prelude
  import opened TopicQueue

  /** `revisions` has an entry per tracker that is not reset (-1). `data` is the applied payload of
      the topics that the page projects into its own state. `pending` is the insertion-ordered map of held worker unit
      events, by epoch. */
  datatype Client = Client(
    revisions: map<Topic, nat>,
    caches: map<Topic, TopicEvent>,
    data: map<Topic, Body>,
    epoch: string,
    units: seq<string>,
    unitsRevision: Option<nat>,
    walletGeneration: Option<string>,
    pending: seq<TopicEvent>)

  const PENDING_LIMIT: nat := 4

  /** Whether the event's payload has the shape of its topic. */
  predicate WellFormed(e: TopicEvent) {
    && (e.topic == WorkerUnits <==> e.body.Units?)
    && (e.topic == StorageState <==> e.body.Storage?)
  }

  predicate Projected(t: Topic) {
    t == SessionState || t == BackgroundSnapshot || t == ChainFees || t == ChainHeight
  }

  function Cached(c: Client, t: Topic): int {
    if t == WorkerUnits then (if c.unitsRevision.Some? then c.unitsRevision.value else -1)
    else if t in c.revisions then c.revisions[t] else -1
  }

  function SetRevision(c: Client, e: TopicEvent): Client {
    if e.topic == WorkerUnits then c.(unitsRevision := Some(e.revision))
      else c.(revisions := c.revisions[e.topic := e.revision])
  }

  /** Where the event of an epoch is held, or the number of held events. */
  function HeldAt(pending: seq<TopicEvent>, epoch: string): (k: nat)
    ensures k <= |pending|
    ensures k < |pending| ==> pending[k].sessionEpoch == epoch
    ensures forall j :: 0 <= j < k ==> pending[j].sessionEpoch != epoch
  {
    if pending == [] then 0 else if pending[0].sessionEpoch == epoch then 0 else 1 + HeldAt(pending[1..], epoch)
  }

  /** deferWorkerUnitEvent: keep the highest revision per epoch, and the four youngest epochs. */
  function Hold(pending: seq<TopicEvent>, e: TopicEvent): seq<TopicEvent> {
    var k := HeldAt(pending, e.sessionEpoch);
    var held := if k < |pending| then (if e.revision > pending[k].revision then pending[k := e] else pending)
                else pending + [e];
    if |held| > PENDING_LIMIT then held[|held| - PENDING_LIMIT..] else held
  }

  predicate HoldsUnits(pending: seq<TopicEvent>) {
    forall k :: 0 <= k < |pending| ==> pending[k].body.Units? && pending[k].topic == WorkerUnits
  }

  function Store(c: Client, e: TopicEvent): Client {
    var c := SetRevision(c, e);
    c.(caches := c.caches[e.topic := e], data := if Projected(e.topic) then c.data[e.topic := e.body] else c.data)
  }

  function ApplyUnits(c: Client, e: TopicEvent): Client
    requires e.body.Units?
  {
    if e.sessionEpoch != c.epoch then c.(pending := Hold(c.pending, e))
    else if e.revision <= Cached(c, WorkerUnits) then c
    else Store(c, e).(units := e.body.units)
  }

  function ApplySession(c: Client, e: TopicEvent): Client
    requires HoldsUnits(c.pending)
  {
    var stored := Store(c, e).(epoch := e.sessionEpoch);
    if e.sessionEpoch == c.epoch then stored
    else
      var k := HeldAt(c.pending, e.sessionEpoch);
      var moved := stored.(caches := stored.caches - {WorkerUnits}, units := [], unitsRevision := None, pending := []);
      if k < |c.pending| then ApplyUnits(moved, c.pending[k]) else moved
  }

  /** applyTopicEvent on a valid event. */
  function Apply(c: Client, e: TopicEvent): Client
    requires WellFormed(e)
    requires HoldsUnits(c.pending)
  {
    if e.topic == WorkerUnits then ApplyUnits(c, e)
    else if e.revision <= Cached(c, e.topic) then c
    else if e.topic == SessionState then ApplySession(c, e)
    else if e.topic == StorageState then Store(c, e).(walletGeneration := e.body.walletGeneration)
    else Store(c, e)
  }

  /** resetDisconnectedState: trackers and held events go; caches stay, but for the fee snapshots. */
  function Reset(c: Client): Client {
    c.(revisions := map[], data := c.data - {ChainFees}, pending := [])
  }

  /** A malformed payload: only a malformed session event has an effect. */
  function Reject(c: Client, t: Topic): Client {
    if t == SessionState then Reset(c) else c
  }

  datatype Message = Valid(event: TopicEvent) | Malformed(topic: Topic)

  predicate MessageOk(m: Message) { m.Valid? ==> WellFormed(m.event) }

  // --------------------------------------------------------------- theorems

  /** What the page was given before any topic event: the bootstrap snapshot of an epoch. */
  datatype Boot = Boot(epoch: string, units: seq<string>, revision: Option<nat>)

  /** Units in the cache belong to the cached epoch: they come from a unit event of that epoch,
      from the bootstrap snapshot of that epoch, or there are none. */
  ghost predicate UnitsBelong(c: Client, boot: Boot) {
    if WorkerUnits in c.caches then
      var e := c.caches[WorkerUnits];
      e.sessionEpoch == c.epoch && e.body == Units(c.units) && c.unitsRevision == Some(e.revision)
    else
      || (c.units == [] && c.unitsRevision == None)
      || (c.epoch == boot.epoch && c.units == boot.units && c.unitsRevision == boot.revision)
  }

  ghost predicate DistinctEpochs(pending: seq<TopicEvent>) {
    forall j, k :: 0 <= j < k < |pending| ==> pending[j].sessionEpoch != pending[k].sessionEpoch
  }

  ghost predicate PendingOk(c: Client) {
    && |c.pending| <= PENDING_LIMIT
    && HoldsUnits(c.pending)
    && (forall k :: 0 <= k < |c.pending| ==> c.pending[k].sessionEpoch != c.epoch)
    && DistinctEpochs(c.pending)
  }

  ghost predicate ClientOk(c: Client, boot: Boot) { UnitsBelong(c, boot) && PendingOk(c) }

  function Receive(c: Client, m: Message): Client
    requires MessageOk(m)
    requires HoldsUnits(c.pending)
  {
    match m case Valid(e) => Apply(c, e) case Malformed(t) => Reject(c, t)
  }

  lemma HoldShape(pending: seq<TopicEvent>, e: TopicEvent)
    requires |pending| <= PENDING_LIMIT
    ensures var k := HeldAt(pending, e.sessionEpoch);
            Hold(pending, e) ==
              if k < |pending| then (if e.revision > pending[k].revision then pending[k := e] else pending)
              else if |pending| == PENDING_LIMIT then pending[1..] + [e] else pending + [e]
  {
    if |pending| == PENDING_LIMIT { TailOfAppend(pending, e); }
    hide HeldAt;
  }

  lemma TailOfAppend(pending: seq<TopicEvent>, e: TopicEvent)
    requires pending != []
    ensures (pending + [e])[1..] == pending[1..] + [e]
  { }

  lemma HoldKeepsPending(c: Client, e: TopicEvent)
    requires PendingOk(c) && e.body.Units? && e.topic == WorkerUnits && e.sessionEpoch != c.epoch
    ensures PendingOk(c.(pending := Hold(c.pending, e)))
  {
    HoldShape(c.pending, e);
    var k := HeldAt(c.pending, e.sessionEpoch);
    if k == |c.pending| {
      if c.pending != [] { DropKeepsPending(c); }
      var kept := if |c.pending| == PENDING_LIMIT then c.pending[1..] else c.pending;
      AppendKeepsPending(c.(pending := kept), e);
    } else {
      ReplaceKeepsPending(c, k, e);
    }
    hide Hold, HeldAt, PendingOk;
  }

  lemma ReplaceKeepsPending(c: Client, k: nat, e: TopicEvent)
    requires PendingOk(c) && k < |c.pending| && e.body.Units? && e.topic == WorkerUnits
    requires e.sessionEpoch == c.pending[k].sessionEpoch
    ensures PendingOk(c.(pending := c.pending[k := e]))
  { }

  lemma DropKeepsPending(c: Client)
    requires PendingOk(c) && c.pending != []
    ensures PendingOk(c.(pending := c.pending[1..]))
  { }

  lemma AppendKeepsPending(c: Client, e: TopicEvent)
    requires PendingOk(c) && |c.pending| < PENDING_LIMIT && e.body.Units? && e.topic == WorkerUnits
    requires e.sessionEpoch != c.epoch && forall j :: 0 <= j < |c.pending| ==>
        c.pending[j].sessionEpoch != e.sessionEpoch
    ensures PendingOk(c.(pending := c.pending + [e]))
  { }

  lemma ReceiveKeepsClient(c: Client, m: Message, boot: Boot)
    requires ClientOk(c, boot) && MessageOk(m)
    ensures ClientOk(Receive(c, m), boot)
  {
    if m.Valid? {
      if m.event.topic == WorkerUnits { UnitsKeepClient(c, m.event, boot); }
      else if m.event.topic == SessionState { SessionKeepsClient(c, m.event, boot); }
      else { hide HoldsUnits, DistinctEpochs; }
    }
    hide ApplyUnits, ApplySession, Hold;
  }

  lemma UnitsKeepClient(c: Client, e: TopicEvent, boot: Boot)
    requires ClientOk(c, boot) && e.topic == WorkerUnits && e.body.Units?
    ensures ClientOk(ApplyUnits(c, e), boot)
  {
    if e.sessionEpoch != c.epoch { HoldKeepsPending(c, e); }
    hide Hold, HoldsUnits, DistinctEpochs;
  }

  lemma SessionKeepsClient(c: Client, e: TopicEvent, boot: Boot)
    requires ClientOk(c, boot) && e.topic == SessionState && WellFormed(e)
    ensures ClientOk(ApplySession(c, e), boot)
  {
    hide Hold;
  }

  lemma UnitsRiseOnUnits(c: Client, e: TopicEvent)
    requires e.body.Units? && e.topic == WorkerUnits
    ensures var d := ApplyUnits(c, e);
            && d.epoch == c.epoch && Cached(c, WorkerUnits) <= Cached(d, WorkerUnits)
            && (Cached(c, WorkerUnits) == Cached(d, WorkerUnits) ==> d.units == c.units)
  {
    hide Hold;
  }

  /** Within an epoch the revision of the cached units never falls, and units only change with it rising. */
  lemma UnitsRiseWithinEpoch(c: Client, m: Message)
    requires HoldsUnits(c.pending) && MessageOk(m) && Receive(c, m).epoch == c.epoch
    ensures Cached(c, WorkerUnits) <= Cached(Receive(c, m), WorkerUnits)
    ensures Cached(c, WorkerUnits) == Cached(Receive(c, m), WorkerUnits) ==> Receive(c, m).units == c.units
  {
    if m.Valid? {
      if m.event.topic == WorkerUnits {
        UnitsRiseOnUnits(c, m.event);
        hide ApplyUnits;
      } else if m.event.topic == SessionState {
        var k := HeldAt(c.pending, m.event.sessionEpoch);
        if m.event.sessionEpoch != c.epoch && k < |c.pending| {
          var stored := Store(c, m.event).(epoch := m.event.sessionEpoch);
          UnitsRiseOnUnits(stored.(caches := stored.caches - {WorkerUnits}, units := [], unitsRevision := None,
            pending := []), c.pending[k]);
        }
        hide ApplyUnits, HeldAt;
      }
    }
  }

  /** Confirming a new epoch applies, in the same step, the event held for it, and shows no
      units otherwise; every other held event is dropped. */
  lemma ConfirmedEpochApplies(c: Client, e: TopicEvent, boot: Boot)
    requires ClientOk(c, boot) && WellFormed(e) && e.topic == SessionState
    requires e.revision > Cached(c, SessionState) && e.sessionEpoch != c.epoch
    ensures var d := Apply(c, e); var k := HeldAt(c.pending, e.sessionEpoch);
            && d.epoch == e.sessionEpoch && d.pending == []
            && (k < |c.pending| ==>
                 Units(d.units) == c.pending[k].body && d.unitsRevision == Some(c.pending[k].revision))
            && (k == |c.pending| ==> d.units == [] && d.unitsRevision == None)
  {
  }

  // ------------------------------------------------- the exact effect of one event

  /** A unit event of the cached epoch is applied exactly if it is newer than the cached units; one of
      another epoch is held, and nothing else changes. */
  lemma UnitsApplyIffNewer(c: Client, e: TopicEvent)
    requires e.topic == WorkerUnits && WellFormed(e) && HoldsUnits(c.pending)
    ensures var d := Apply(c, e);
            if e.sessionEpoch != c.epoch then d == c.(pending := Hold(c.pending, e))
            else if e.revision > Cached(c, WorkerUnits) then
              && d == c.(units := d.units, unitsRevision := Some(e.revision), caches := c.caches[WorkerUnits := e])
              && Units(d.units) == e.body
            else d == c
  { hide Hold; }

  /** An event of another topic is applied exactly if it is newer than the last one applied; then it is
      cached, its revision counts, a projected payload is taken over, the wallet generation follows
      storage.state and the epoch follows session.state. */
  lemma OthersApplyIffNewer(c: Client, e: TopicEvent)
    requires e.topic != WorkerUnits && WellFormed(e) && HoldsUnits(c.pending)
    ensures var d := Apply(c, e);
            if e.revision > Cached(c, e.topic) then
              && e.topic in d.caches && d.caches[e.topic] == e && d.revisions == c.revisions[e.topic := e.revision]
              && d.data == (if Projected(e.topic) then c.data[e.topic := e.body] else c.data)
              && d.walletGeneration == (if e.topic == StorageState then e.body.walletGeneration else c.walletGeneration)
              && d.epoch == (if e.topic == SessionState then e.sessionEpoch else c.epoch)
              && (forall u :: u != e.topic && u != WorkerUnits ==>
                   ((u in d.caches <==> u in c.caches) && (u in c.caches ==> d.caches[u] == c.caches[u])))
              && (d.epoch == c.epoch ==>
                    d.units == c.units && d.unitsRevision == c.unitsRevision && d.pending == c.pending)
            else d == c
  {
    if e.topic == SessionState && e.sessionEpoch != c.epoch {
      var k := HeldAt(c.pending, e.sessionEpoch);
      if k < |c.pending| { assert c.pending[k].topic == WorkerUnits; }
    }
    hide Hold, HeldAt, Coalesces;
  }

  // ------------------------------------------------------- held events over runs

  /** A client with the line of epochs that it should hold, oldest first, and for each of them the
      unit events deferred since it stands there. */
  datatype Tracked = Tracked(client: Client, line: seq<string>, deferred: map<string, seq<TopicEvent>>)

  predicate Defers(c: Client, m: Message) {
    m.Valid? && m.event.topic == WorkerUnits && m.event.sessionEpoch != c.epoch
  }

  /** A new epoch goes to the end of the line; the first of five leaves it. */
  function Lined(line: seq<string>, ep: string): seq<string> {
    if ep in line then line else if |line| >= PENDING_LIMIT then line[1..] + [ep] else line + [ep]
  }

  function Among(deferred: map<string, seq<TopicEvent>>, line: seq<string>): map<string, seq<TopicEvent>> {
    map ep | ep in deferred && ep in line :: deferred[ep]
  }

  function Track(t: Tracked, m: Message): Tracked
    requires MessageOk(m)
    requires HoldsUnits(t.client.pending)
  {
    var d := Receive(t.client, m);
    if Defers(t.client, m) then
      var line := Lined(t.line, m.event.sessionEpoch);
      var log := Noted(t.deferred, m.event);
      Tracked(d, line, Among(log, line))
    else if d.epoch != t.client.epoch || m == Malformed(SessionState) then Tracked(d, [], map[])
    else Tracked(d, t.line, t.deferred)
  }

  ghost predicate Highest(p: TopicEvent, deferred: map<string, seq<TopicEvent>>) {
    && p.sessionEpoch in deferred
    && p in deferred[p.sessionEpoch]
    && forall d :: d in deferred[p.sessionEpoch] ==> d.revision <= p.revision
  }

  /** What is held are the epochs of the line, each with a deferred event of its epoch that none of
      them exceeds. */
  ghost predicate HoldsHighest(t: Tracked) {
    && InLine(t.client.pending, t.line)
    && (forall ep :: ep in t.deferred <==> ep in t.line)
    && (forall k :: 0 <= k < |t.client.pending| ==> Highest(t.client.pending[k], t.deferred))
  }

  predicate InLine(pending: seq<TopicEvent>, line: seq<string>) {
    |line| == |pending| && forall k :: 0 <= k < |line| ==> pending[k].sessionEpoch == line[k]
  }

  ghost predicate TrackedOk(t: Tracked, boot: Boot) { ClientOk(t.client, boot) && HoldsHighest(t) }

  /** The deferred events after one more deferral, before epochs no longer held are dropped. */
  function Noted(deferred: map<string, seq<TopicEvent>>, e: TopicEvent): map<string, seq<TopicEvent>> {
    deferred[e.sessionEpoch := (if e.sessionEpoch in deferred then deferred[e.sessionEpoch] else []) + [e]]
  }

  lemma HeldInLine(pending: seq<TopicEvent>, line: seq<string>, ep: string)
    requires InLine(pending, line)
    ensures ep in line <==> HeldAt(pending, ep) < |pending|
  {
    var k := HeldAt(pending, ep);
    if k < |pending| { assert line[k] == ep; }
  }

  lemma HoldKeepsLine(pending: seq<TopicEvent>, line: seq<string>, e: TopicEvent)
    requires InLine(pending, line) && |pending| <= PENDING_LIMIT
    ensures InLine(Hold(pending, e), Lined(line, e.sessionEpoch))
  {
    HoldShape(pending, e);
    HeldInLine(pending, line, e.sessionEpoch);
    hide Hold, HeldAt;
  }

  /** What is held after a deferral: the new event, if it exceeds the one held for its epoch, or an
      older one, which the new event does not exceed if it is of the same epoch. */
  lemma InHold(pending: seq<TopicEvent>, e: TopicEvent, p: TopicEvent)
    requires |pending| <= PENDING_LIMIT && DistinctEpochs(pending) && p in Hold(pending, e)
    ensures
      || (p in pending && (p.sessionEpoch == e.sessionEpoch ==> e.revision <= p.revision))
      || (p == e && forall q :: q in pending && q.sessionEpoch == e.sessionEpoch ==> q.revision <= e.revision)
  {
    HoldShape(pending, e);
    var k := HeldAt(pending, e.sessionEpoch);
    assert forall j :: 0 <= j < |pending| && j != k ==> pending[j].sessionEpoch != e.sessionEpoch;
    hide Hold, HeldAt;
    var held := Hold(pending, e);
    var j :| 0 <= j < |held| && held[j] == p;
  }

  lemma HeldStaysHighest(t: Tracked, e: TopicEvent, p: TopicEvent)
    requires |t.client.pending| <= PENDING_LIMIT && HoldsHighest(t) && DistinctEpochs(t.client.pending)
    requires p in Hold(t.client.pending, e)
    ensures Highest(p, Noted(t.deferred, e))
  {
    var pending := t.client.pending;
    InHold(pending, e, p);
    HeldInLine(pending, t.line, e.sessionEpoch);
    var k := HeldAt(pending, e.sessionEpoch);
    if k < |pending| { assert Highest(pending[k], t.deferred) && pending[k] in pending; }
    if p in pending { IsHighest(t, p); }
    hide Hold, HeldAt, HoldsHighest, DistinctEpochs;
  }

  lemma IsHighest(t: Tracked, p: TopicEvent)
    requires HoldsHighest(t) && p in t.client.pending
    ensures Highest(p, t.deferred)
  {
    var j :| 0 <= j < |t.client.pending| && t.client.pending[j] == p;
  }

  lemma TrackDeferral(t: Tracked, m: Message)
    requires HoldsUnits(t.client.pending) && HoldsHighest(t) && DistinctEpochs(t.client.pending)
    requires |t.client.pending| <= PENDING_LIMIT && MessageOk(m) && Defers(t.client, m)
    ensures HoldsHighest(Track(t, m))
  {
    var e := m.event;
    var held, line, log := Hold(t.client.pending, e), Lined(t.line, e.sessionEpoch), Noted(t.deferred, e);
    HoldKeepsLine(t.client.pending, t.line, e);
    assert Track(t, m) == Tracked(Receive(t.client, m), line, Among(log, line));
    assert Receive(t.client, m).pending == held;
    assert forall ep :: ep in t.deferred <==> ep in t.line;
    assert forall ep :: ep in line ==> ep in log;
    forall k | 0 <= k < |held| ensures Highest(held[k], Among(log, line)) {
      HeldStaysHighest(t, e, held[k]);
      HighestAmong(held[k], log, line);
      hide *;
    }
    hide Hold, Receive, Lined, HoldsUnits, DistinctEpochs, Track, Noted, Highest;
  }

  lemma HighestAmong(p: TopicEvent, log: map<string, seq<TopicEvent>>, line: seq<string>)
    requires Highest(p, log) && p.sessionEpoch in line
    ensures Highest(p, Among(log, line))
  { }

  lemma TrackOther(t: Tracked, m: Message)
    requires HoldsUnits(t.client.pending) && HoldsHighest(t)
    requires MessageOk(m) && !Defers(t.client, m)
    ensures HoldsHighest(Track(t, m))
  {
    PendingMoves(t.client, m);
    hide Receive, Coalesces;
  }

  lemma PendingMoves(c: Client, m: Message)
    requires HoldsUnits(c.pending) && MessageOk(m) && !Defers(c, m)
    ensures var d := Receive(c, m);
            d.pending == if d.epoch != c.epoch || m == Malformed(SessionState) then [] else c.pending
  {
    if m.Valid? && m.event.topic == SessionState && m.event.sessionEpoch != c.epoch {
      var k := HeldAt(c.pending, m.event.sessionEpoch);
      if k < |c.pending| { assert c.pending[k].sessionEpoch == m.event.sessionEpoch; }
    }
    hide Hold, HeldAt, Coalesces;
  }

  lemma TrackKeeps(t: Tracked, m: Message, boot: Boot)
    requires TrackedOk(t, boot) && MessageOk(m)
    ensures TrackedOk(Track(t, m), boot)
  {
    ReceiveKeepsClient(t.client, m, boot);
    if Defers(t.client, m) { TrackDeferral(t, m); } else { TrackOther(t, m); }
    hide Receive, UnitsBelong, HoldsHighest;
  }

  ghost function TrackAll(t: Tracked, ms: seq<Message>, boot: Boot): (u: Tracked)
    requires TrackedOk(t, boot) && forall k :: 0 <= k < |ms| ==> MessageOk(ms[k])
    ensures TrackedOk(u, boot)
  {
    if ms == [] then t
    else
      var before := TrackAll(t, ms[..|ms| - 1], boot);
      TrackKeeps(before, ms[|ms| - 1], boot);
      Track(before, ms[|ms| - 1])
  }

  /** A page as it stands: each event it holds counts as the one deferral of its epoch. */
  function Recorded(c: Client): Tracked {
    var line := seq(|c.pending|, k requires 0 <= k < |c.pending| => c.pending[k].sessionEpoch);
    Tracked(c, line, map ep | ep in line && HeldAt(c.pending, ep) < |c.pending| :: [c.pending[HeldAt(c.pending, ep)]])
  }

  /** Over every sequence of messages, from any page in order, also one that reconnects with cached
      units: cached units belong to the cached epoch; held are the four epochs last to have had a unit
      event deferred for the first time, each once and with its highest-revision event. */
  lemma HeldUnitsOverRuns(c: Client, ms: seq<Message>, boot: Boot)
    requires ClientOk(c, boot) && forall k :: 0 <= k < |ms| ==> MessageOk(ms[k])
    ensures TrackedOk(Recorded(c), boot)
    ensures var u := TrackAll(Recorded(c), ms, boot);
            UnitsBelong(u.client, boot) && PendingOk(u.client) && HoldsHighest(u)
  {
    var r := Recorded(c);
    forall ep ensures ep in r.deferred <==> ep in r.line { HeldInLine(c.pending, r.line, ep); }
    forall k | 0 <= k < |c.pending| ensures Highest(c.pending[k], r.deferred) {
      var ep := c.pending[k].sessionEpoch;
      assert r.line[k] == ep;
      HeldInLine(c.pending, r.line, ep);
      assert HeldAt(c.pending, ep) == k;
    }
  }

  // ---------------------------------------------------------- the units shown, over runs

  /** An offer of units: its revision and the units. */
  type Offer = (nat, seq<string>)

  function OfferOf(e: TopicEvent): Offer
    requires e.body.Units?
  {
    (e.revision, e.body.units)
  }

  /** What was offered for an epoch: the deferred events, as they came. */
  function OffersOf(es: seq<TopicEvent>): seq<Offer> {
    if es == [] then []
    else OffersOf(es[..|es| - 1]) + (var e := es[|es| - 1]; if e.body.Units? then [OfferOf(e)] else [])
  }

  /** All units offered for the epoch that the page is in: those it began with, the events deferred
      for the epoch before it was confirmed, and the events of the epoch received since. */
  ghost function Offers(t: Tracked, ms: seq<Message>, boot: Boot): seq<Offer>
    requires TrackedOk(t, boot) && forall k :: 0 <= k < |ms| ==> MessageOk(ms[k])
  {
    if ms == [] then (if t.client.unitsRevision.Some? then [(t.client.unitsRevision.value, t.client.units)] else [])
    else
      var before, m := ms[..|ms| - 1], ms[|ms| - 1];
      var u, w := TrackAll(t, before, boot), TrackAll(t, ms, boot);
      if w.client.epoch != u.client.epoch then
        (if w.client.epoch in u.deferred then OffersOf(u.deferred[w.client.epoch]) else [])
      else if m.Valid? && m.event.topic == WorkerUnits && m.event.sessionEpoch == u.client.epoch then
        Offers(t, before, boot) + [OfferOf(m.event)]
      else Offers(t, before, boot)
  }

  /** The units shown are an offer that no other exceeds; without an offer there are none to count. */
  ghost predicate Newest(c: Client, offers: seq<Offer>) {
    if offers == [] then c.unitsRevision == None
    else
      && c.unitsRevision.Some? && (c.unitsRevision.value, c.units) in offers
      && forall o :: o in offers ==> o.0 <= c.unitsRevision.value
  }

  lemma {:induction false} OffersOfAll(es: seq<TopicEvent>, o: Offer)
    ensures o in OffersOf(es) <==> exists e :: e in es && e.body.Units? && OfferOf(e) == o
  {
    if es != [] {
      var n := |es| - 1;
      OffersOfAll(es[..n], o);
      assert es == es[..n] + [es[n]];
    }
  }

  /** At every moment the page shows the newest units offered for its epoch. */
  lemma {:induction false} UnitsAreNewest(t: Tracked, ms: seq<Message>, boot: Boot)
    requires TrackedOk(t, boot) && forall k :: 0 <= k < |ms| ==> MessageOk(ms[k])
    ensures Newest(TrackAll(t, ms, boot).client, Offers(t, ms, boot))
  {
    if ms != [] {
      var before, m := ms[..|ms| - 1], ms[|ms| - 1];
      UnitsAreNewest(t, before, boot);
      var u := TrackAll(t, before, boot);
      StepIsNewest(u, m, Offers(t, before, boot), boot);
    }
  }

  lemma StepIsNewest(t: Tracked, m: Message, offers: seq<Offer>, boot: Boot)
    requires TrackedOk(t, boot) && MessageOk(m) && Newest(t.client, offers)
    ensures var c, d := t.client, Receive(t.client, m);
            var after := if d.epoch != c.epoch then
              (if d.epoch in t.deferred then OffersOf(t.deferred[d.epoch]) else [])
              else if m.Valid? && m.event.topic == WorkerUnits && m.event.sessionEpoch == c.epoch then
                offers + [OfferOf(m.event)]
              else offers;
            Newest(d, after)
  {
    var c, d := t.client, Receive(t.client, m);
    if m.Valid? && m.event.topic == WorkerUnits { UnitsApplyIffNewer(c, m.event); }
    else if d.epoch != c.epoch { ConfirmedIsNewest(t, m.event, boot); }
    else if m.Valid? { OthersApplyIffNewer(c, m.event); }
    hide Apply, HoldsHighest, ClientOk, Hold, HeldAt, OffersOf;
  }

  lemma ConfirmedIsNewest(t: Tracked, e: TopicEvent, boot: Boot)
    requires TrackedOk(t, boot) && WellFormed(e) && Apply(t.client, e).epoch != t.client.epoch
    ensures var d := Apply(t.client, e);
            Newest(d, if d.epoch in t.deferred then OffersOf(t.deferred[d.epoch]) else [])
  {
    var c, d := t.client, Apply(t.client, e);
    EpochFollowsSession(c, e);
    ConfirmedEpochApplies(c, e, boot);
    var k := HeldAt(c.pending, e.sessionEpoch);
    HeldInLine(c.pending, t.line, e.sessionEpoch);
    hide Apply, HeldAt;
    if k < |c.pending| {
      var p := c.pending[k];
      assert Highest(p, t.deferred);
      var offers := OffersOf(t.deferred[e.sessionEpoch]);
      OffersOfAll(t.deferred[e.sessionEpoch], OfferOf(p));
      forall o | o in offers ensures o.0 <= p.revision {
        OffersOfAll(t.deferred[e.sessionEpoch], o);
      }
    }
  }

  lemma EpochFollowsSession(c: Client, e: TopicEvent)
    requires WellFormed(e) && HoldsUnits(c.pending) && Apply(c, e).epoch != c.epoch
    ensures e.topic == SessionState && e.revision > Cached(c, SessionState) && e.sessionEpoch != c.epoch
    ensures Apply(c, e).epoch == e.sessionEpoch
  {
    if e.topic == WorkerUnits { UnitsApplyIffNewer(c, e); } else { OthersApplyIffNewer(c, e); }
    hide Apply, Hold;
  }

  /** Losing the connection leaves such a page, and so does connecting for the first time. */
  lemma ResetKeepsClient(c: Client, boot: Boot)
    requires ClientOk(c, boot)
    ensures ClientOk(Reset(c), boot)
  {
  }

  // ---------------------------------------------------------------- in place

  class TopicProjection {
    var revisions: map<Topic, nat>
    var caches: map<Topic, TopicEvent>
    var data: map<Topic, Body>
    var epoch: string
    var units: seq<string>
    var unitsRevision: Option<nat>
    var walletGeneration: Option<string>
    var pending: seq<TopicEvent>

    function View(): Client
      reads this
    {
      Client(revisions, caches, data, epoch, units, unitsRevision, walletGeneration, pending)
    }

    constructor (epoch: string, units: seq<string>, unitsRevision: Option<nat>)
      ensures View() == Client(map[], map[], map[], epoch, units, unitsRevision, None, [])
      ensures ClientOk(View(), Boot(epoch, units, unitsRevision))
    {
      this.epoch, this.units, this.unitsRevision := epoch, units, unitsRevision;
      revisions, caches, data, walletGeneration, pending := map[], map[], map[], None, [];
    }

    /** deferWorkerUnitEvent. */
    method DeferWorkerUnitEvent(event: TopicEvent)
      requires |pending| <= PENDING_LIMIT
      modifies this`pending
      ensures pending == Hold(old(pending), event)
    {
      HoldShape(pending, event);
      var k := HeldAt(pending, event.sessionEpoch);
      if k == |pending| {
        pending := pending + [event];
      } else if event.revision > pending[k].revision {
        pending := pending[k := event];
      }
      while |pending| > PENDING_LIMIT
        invariant |pending| > PENDING_LIMIT ==>
          pending == old(pending) + [event] && |old(pending)| == PENDING_LIMIT && k == |old(pending)|
        invariant |pending| <= PENDING_LIMIT ==> pending == Hold(old(pending), event)
        decreases |pending|
      {
        pending := pending[1..];
      }
    }

    /** applyTopicEvent: a malformed payload is dropped, and resets the trackers if it is a session's. */
    method ApplyTopicEvent(message: Message)
      requires MessageOk(message) && HoldsUnits(pending) && |pending| <= PENDING_LIMIT
      modifies this
      ensures View() == Receive(old(View()), message)
    {
      hide Apply;
      match message
      case Malformed(topic) => if topic == SessionState { ResetDisconnectedState(); }
      case Valid(event) => ApplyValid(event);
    }

    /** The rest of it; the recursive call replays at most one held unit event. */
    method ApplyValid(event: TopicEvent)
      requires WellFormed(event) && HoldsUnits(pending) && |pending| <= PENDING_LIMIT
      modifies this
      ensures View() == Apply(old(View()), event)
      decreases event.topic != WorkerUnits
    {
      hide Hold;
      if event.topic == WorkerUnits && event.sessionEpoch != epoch {
        DeferWorkerUnitEvent(event);
        return;
      }
      if event.revision <= Cached(View(), event.topic) { return; }
      if event.topic == WorkerUnits { unitsRevision := Some(event.revision); }
      else { revisions := revisions[event.topic := event.revision]; }
      caches := caches[event.topic := event];
      if Projected(event.topic) { data := data[event.topic := event.body]; }
      if event.topic == SessionState {
        var changed := epoch != event.sessionEpoch;
        epoch := event.sessionEpoch;
        if changed {
          caches := caches - {WorkerUnits};
          units, unitsRevision := [], None;
          var k := HeldAt(pending, epoch);
          var held := pending;
          pending := [];
          if k < |held| {
            ApplyValid(held[k]);
          }
        }
      } else if event.topic == StorageState {
        walletGeneration := event.body.walletGeneration;
      } else if event.topic == WorkerUnits {
        units := event.body.units;
      }
    }

    /** resetDisconnectedState. */
    method ResetDisconnectedState()
      modifies this
      ensures View() == Reset(old(View()))
    {
      revisions, pending := map[], [];
      data := data - {ChainFees};
    }
  }
}
