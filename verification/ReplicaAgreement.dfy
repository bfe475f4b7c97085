/** The worker, one topic stream and the page's projection as one system. The stream is
    registered before its baselines are built; the page accepts only larger revisions. */
module ReplicaAgreement {
  import opened Prelude
  import opened TopicQueue
  import opened TopicClient

  /** Where the stream generator is. `Looping` is between takes, `Blocked` awaits one. */
  datatype Phase = AwaitingBaselines | Yielding(rest: seq<TopicEvent>) | Looping | Blocked | Ended

  /** `revisions` and `values` are the worker's counters and current projections; `wire`
      holds what the generator yielded and the page has not processed. */
  datatype System = System(
    revisions: map<Topic, nat>,
    values: map<Topic, Body>,
    epoch: string,
    queue: Queue,
    phase: Phase,
    wire: seq<TopicEvent>,
    client: Client)

  datatype Event =
    | Publish(topic: Topic, value: Body, epoch: string)  // a projection changes and is published in the same step
    | PublishOther(event: TopicEvent)                    // any event of a topic that is not replicated here
    | BuildBaselines(baselines: seq<TopicEvent>)
    | YieldBaseline
    | TakeNext
    | CloseStream(error: Option<StreamError>)
    | Deliver

  /** The topics whose revision the worker counts up at every publication. */
  predicate Replicated(t: Topic) { Projected(t) }

  predicate WorkerOk(s: System) {
    forall t :: Replicated(t) ==> t in s.revisions && t in s.values && s.values[t].Data?
  }

  function Snapshot(s: System, t: Topic): TopicEvent
    requires WorkerOk(s) && Replicated(t)
  {
    TopicEvent(t, s.revisions[t], s.epoch, s.values[t])
  }

  /** What the generator does with a settled take. */
  function Resume(s: System, out: seq<Settlement>): System {
    if out == [] then s
    else match out[0].result
      case Item(e) => s.(wire := s.wire + [e], phase := Looping)
      case _ => s.(phase := Ended)
  }

  function Offered(s: System, e: TopicEvent): System {
    var (q, out) := Enqueue(s.queue, e);
    Resume(s.(queue := q), out)
  }

  ghost predicate Enabled(s: System, e: Event)
    requires WorkerOk(s)
  {
    match e
    case Publish(t, v, _) => Replicated(t) && v.Data?
    case PublishOther(e) => !Replicated(e.topic) && WellFormed(e)
    case BuildBaselines(bs) =>
      && s.phase == AwaitingBaselines
      && (forall k :: 0 <= k < |bs| ==> WellFormed(bs[k]))
      && (forall t :: Replicated(t) && t in s.queue.topics ==> OnTopic(bs, t) == [Snapshot(s, t)])
      && (forall t :: Replicated(t) && t !in s.queue.topics ==> OnTopic(bs, t) == [])
    case YieldBaseline => s.phase.Yielding?
    case TakeNext => s.phase == Looping
    case CloseStream(_) => true
    case Deliver => s.wire != []
  }

  function Bumped(s: System, topic: Topic, v: Body, epoch: string): System
    requires WorkerOk(s) && Replicated(topic)
  {
    s.(revisions := s.revisions[topic := s.revisions[topic] + 1], values := s.values[topic := v], epoch := epoch)
  }

  function Published(s: System, t: Topic, v: Body, epoch: string): System
    requires WorkerOk(s) && Replicated(t) && v.Data?
  {
    var s1 := Bumped(s, t, v, epoch);
    Offered(s1, Snapshot(s1, t))
  }

  function Yielded(s: System): System
    requires s.phase.Yielding?
  {
    if s.phase.rest == [] then s.(phase := Looping)
    else s.(wire := s.wire + [s.phase.rest[0]], phase := Yielding(s.phase.rest[1..]))
  }

  function Taken(s: System): System {
    var (q, out) := Take(s.queue);
    Resume(s.(queue := q, phase := Blocked), out)
  }

  function Closed(s: System, error: Option<StreamError>): System {
    var (q, out) := Close(s.queue, error);
    Resume(s.(queue := q), out)
  }

  function Delivered(s: System): System
    requires s.wire != [] && PipelineWellFormed(s)
  {
    s.(wire := s.wire[1..], client := Apply(s.client, s.wire[0]))
  }

  ghost function Step(s: System, e: Event): System
    requires WorkerOk(s) && PipelineWellFormed(s)
  {
    if !Enabled(s, e) then s else
    match e
    case Publish(t, v, epoch) => Published(s, t, v, epoch)
    case PublishOther(other) => Offered(s, other)
    case BuildBaselines(bs) => s.(phase := Yielding(bs))
    case YieldBaseline => Yielded(s)
    case TakeNext => Taken(s)
    case CloseStream(error) => Closed(s, error)
    case Deliver => Delivered(s)
  }

  /** Everything between the worker and the page, in the order in which the page will process it. */
  function Pipeline(s: System): seq<TopicEvent> {
    s.wire + (if s.phase.Yielding? then s.phase.rest else []) + s.queue.values
  }

  predicate PipelineWellFormed(s: System) {
    && (forall k :: 0 <= k < |s.wire| ==> WellFormed(s.wire[k]))
    && HoldsUnits(s.client.pending)
  }

  // -------------------------------------------------------------- invariant

  /** An event never runs ahead of the worker, and at the worker's revision it carries the worker's value. */
  predicate Agrees(s: System, e: TopicEvent)
    requires WorkerOk(s)
  {
    Replicated(e.topic) ==>
      e.revision <= s.revisions[e.topic] && (e.revision == s.revisions[e.topic] ==> e.body == s.values[e.topic])
  }

  predicate ClientAgrees(s: System, t: Topic)
    requires WorkerOk(s) && Replicated(t)
  {
    && Cached(s.client, t) <= s.revisions[t]
    && (Cached(s.client, t) == s.revisions[t] ==> t in s.client.data && s.client.data[t] == s.values[t])
  }

  /** The worker's latest is at the page or on its way. */
  ghost predicate Reaches(s: System, t: Topic)
    requires WorkerOk(s) && Replicated(t)
  {
    || Cached(s.client, t) == s.revisions[t]
    || exists e :: e in Pipeline(s) && e.topic == t && e.revision == s.revisions[t]
  }

  predicate Open(s: System) { !s.phase.Ended? && !s.queue.closed }

  /** The invariant, but for reaching the topics in `pending`: those about to be offered. */
  ghost predicate InvBut(s: System, pending: set<Topic>) {
    && WorkerOk(s) && PipelineWellFormed(s)
    && (forall e :: e in Pipeline(s) ==> WellFormed(e) && Agrees(s, e))
    && (forall t :: Replicated(t) ==> ClientAgrees(s, t))
    && (Open(s) && s.phase != AwaitingBaselines ==>
          forall t :: Replicated(t) && t in s.queue.topics && t !in pending ==> Reaches(s, t))
    && GeneratorOk(s)
  }

  predicate GeneratorOk(s: System) {
    && (s.queue.waiters != [] <==> s.phase == Blocked && !s.queue.closed)
    && |s.queue.waiters| <= 1
    && (s.queue.values == [] || s.queue.waiters == [])
  }

  ghost predicate Inv(s: System) { InvBut(s, {}) }

  /** A connection begins: the queue is registered, the page's trackers are reset. */
  function Begin(revisions: map<Topic, nat>, values: map<Topic, Body>, epoch: string, topics: set<Topic>,
    page: Client): System {
    System(revisions, values, epoch, Fresh(topics), AwaitingBaselines, [], TopicClient.Reset(page))
  }

  lemma BeginEstablishes(revisions: map<Topic, nat>, values: map<Topic, Body>, epoch: string, topics: set<Topic>,
    page: Client)
    requires WorkerOk(Begin(revisions, values, epoch, topics, page))
    ensures Inv(Begin(revisions, values, epoch, topics, page))
  {
  }

  /** What applying an event does to the replicated topics. */
  ghost predicate Tracks(c: Client, d: Client, e: TopicEvent) {
    forall t :: Replicated(t) ==>
      if e.topic == t && e.revision > Cached(c, t)
      then Cached(d, t) == e.revision && t in d.data && d.data[t] == e.body
      else Cached(d, t) == Cached(c, t) && (t in c.data ==> t in d.data && d.data[t] == c.data[t])
  }

  lemma UnitsTrack(c: Client, e: TopicEvent)
    requires e.body.Units? && e.topic == WorkerUnits
    ensures var d := ApplyUnits(c, e);
            && d.revisions == c.revisions && d.data == c.data
            && (HoldsUnits(c.pending) ==> HoldsUnits(d.pending))
  {
    hide HeldAt;
  }

  lemma SessionTracks(c: Client, e: TopicEvent)
    requires WellFormed(e) && HoldsUnits(c.pending) && e.topic == SessionState
    ensures var d := ApplySession(c, e);
            && d.revisions == c.revisions[SessionState := e.revision] && d.data == c.data[SessionState := e.body]
              && HoldsUnits(d.pending)
  {
    var k := HeldAt(c.pending, e.sessionEpoch);
    if e.sessionEpoch != c.epoch && k < |c.pending| {
      var stored := Store(c, e).(epoch := e.sessionEpoch);
      UnitsTrack(stored.(caches := stored.caches - {WorkerUnits}, units := [], unitsRevision := None, pending := []),
        c.pending[k]);
    }
    hide ApplyUnits, HeldAt;
  }

  lemma ApplyTracks(c: Client, e: TopicEvent)
    requires WellFormed(e) && HoldsUnits(c.pending)
    ensures HoldsUnits(Apply(c, e).pending) && Tracks(c, Apply(c, e), e)
  {
    if e.topic == WorkerUnits { UnitsTrack(c, e); }
    else if e.topic == SessionState { SessionTracks(c, e); }
    else if e.revision > Cached(c, e.topic) { OthersTrack(c, e); }
    hide ApplyUnits, ApplySession, HoldsUnits, Store;
  }

  lemma OthersTrack(c: Client, e: TopicEvent)
    requires e.topic != WorkerUnits
    ensures var d := Store(c, e);
            && d.revisions == c.revisions[e.topic := e.revision] && d.pending == c.pending
            && d.data == if Projected(e.topic) then c.data[e.topic := e.body] else c.data
  { }

  lemma DeliverKeepsInv(s: System)
    requires Inv(s) && s.wire != []
    ensures Inv(Delivered(s))
  {
    var t, e := Delivered(s), s.wire[0];
    assert Pipeline(s) == [e] + Pipeline(t);
    assert e in Pipeline(s);
    ApplyTracks(s.client, e);
    forall u | Replicated(u) ensures ClientAgrees(t, u) && (Reaches(s, u) ==> Reaches(t, u)) { DeliverAgrees(s, u); }
    hide Pipeline, Apply, WellFormed, HoldsUnits, GeneratorOk, ClientAgrees, Reaches;
  }

  lemma DeliverAgrees(s: System, u: Topic)
    requires Inv(s) && s.wire != [] && Replicated(u)
    ensures ClientAgrees(Delivered(s), u) && (Reaches(s, u) ==> Reaches(Delivered(s), u))
  {
    var t, e := Delivered(s), s.wire[0];
    assert Pipeline(s) == [e] + Pipeline(t);
    assert e in Pipeline(s) && ClientAgrees(s, u);
    ApplyTracks(s.client, e);
    hide Pipeline, Apply, WellFormed, HoldsUnits, GeneratorOk;
  }

  /** A state that differs only in what is under way, and loses nothing of a replicated topic. */
  lemma PipelineGrows(s: System, t: System, offered: set<Topic>)
    requires InvBut(s, offered) && t.client == s.client && t.revisions == s.revisions && t.values == s.values
    requires WorkerOk(t) && PipelineWellFormed(t) && GeneratorOk(t) && t.queue.topics == s.queue.topics
    requires forall e :: e in Pipeline(t) ==> WellFormed(e) && Agrees(t, e)
    requires Open(t) ==> forall e :: e in Pipeline(s) && Replicated(e.topic) ==> e in Pipeline(t)
    requires Open(t) && t.phase != AwaitingBaselines ==>
               && Open(s) && s.phase != AwaitingBaselines
               && forall u :: u in offered && Replicated(u) && u in t.queue.topics ==> Reaches(t, u)
    ensures Inv(t)
  {
    hide Pipeline, WellFormed;
    forall u | Replicated(u) ensures ClientAgrees(t, u) { assert ClientAgrees(s, u); }
    forall u | Replicated(u) && Open(t) && t.phase != AwaitingBaselines && u in t.queue.topics ensures Reaches(t, u) {
      if u !in offered { assert Reaches(s, u); }
    }
  }

  /** What offering an event does to what is under way. */
  lemma OfferedPipeline(s: System, e: TopicEvent)
    requires GeneratorOk(s)
    ensures var t := Offered(s, e);
            && GeneratorOk(t) && t == s.(queue := t.queue, wire := t.wire, phase := t.phase)
            && t.queue.topics == s.queue.topics && (s.queue.closed ==> t.queue.closed)
            && (t.wire == s.wire || t.wire == s.wire + [e])
            && (t.phase == s.phase || (s.phase == Blocked && t.phase == Looping))
            && (forall x :: x in Pipeline(t) ==> x == e || x in Pipeline(s))
            && (!t.queue.closed ==>
                  && (e.topic in t.queue.topics ==> e in Pipeline(t))
                  && forall x :: x in Pipeline(s) && x.topic != StorageState ==> x in Pipeline(t))
  {
    var q := s.queue;
    var t := Offered(s, e);
    if Admits(q, e) && q.waiters == [] && Merges(q, e) {
      assert q.values == q.values[..|q.values| - 1] + [q.values[|q.values| - 1]];
      assert t.queue.values == q.values[..|q.values| - 1] + [e];
    }
  }

  lemma OfferKeepsInv(s: System, e: TopicEvent, offered: set<Topic>)
    requires InvBut(s, offered) && WellFormed(e) && Agrees(s, e)
    requires forall u :: u in offered ==> u == e.topic && Replicated(u) && e.revision == s.revisions[u]
    ensures Inv(Offered(s, e))
  {
    var t := Offered(s, e);
    OfferedPipeline(s, e);
    hide Offered, Pipeline, GeneratorOk, WellFormed;
    assert PipelineWellFormed(t);
    PipelineGrows(s, t, offered);
  }

  lemma BumpKeepsInv(s: System, topic: Topic, v: Body, epoch: string)
    requires Inv(s) && Replicated(topic) && v.Data?
    ensures InvBut(Bumped(s, topic, v, epoch), {topic})
  {
    var t := Bumped(s, topic, v, epoch);
    assert Pipeline(t) == Pipeline(s);
    hide Pipeline, WellFormed, GeneratorOk;
    forall u | Replicated(u) ensures ClientAgrees(t, u) { assert ClientAgrees(s, u); }
    forall u | Replicated(u) && u != topic && Reaches(s, u) ensures Reaches(t, u) {}
  }

  lemma PublishKeepsInv(s: System, topic: Topic, v: Body, epoch: string)
    requires Inv(s) && Replicated(topic) && v.Data?
    ensures Inv(Published(s, topic, v, epoch))
  {
    BumpKeepsInv(s, topic, v, epoch);
    var t := Bumped(s, topic, v, epoch);
    OfferKeepsInv(t, Snapshot(t, topic), {topic});
  }

  lemma TakeKeepsInv(s: System)
    requires Inv(s) && s.phase == Looping
    ensures Inv(Taken(s))
  {
    var q, t := s.queue, Taken(s);
    if q.values != [] {
      assert s.wire + [] + q.values == s.wire + [q.values[0]] + [] + q.values[1..];
      assert Pipeline(t) == Pipeline(s);
    }
    assert PipelineWellFormed(t) by {
      if q.values != [] { assert q.values[0] in Pipeline(s); }
    }
    PipelineGrows(s, t, {});
  }

  lemma CloseKeepsInv(s: System, error: Option<StreamError>)
    requires Inv(s)
    ensures Inv(Closed(s, error))
  {
    var t := Closed(s, error);
    var out := Close(s.queue, error).1;
    assert out != [] ==> out[0] == Settlement(s.queue.waiters[0], Ending(error));
    assert t.queue.closed && forall e :: e in Pipeline(t) ==> e in Pipeline(s);
    PipelineGrows(s, t, {});
  }

  lemma YieldKeepsInv(s: System)
    requires Inv(s) && s.phase.Yielding?
    ensures Inv(Yielded(s))
  {
    var t := Yielded(s);
    YieldMoves(s);
    hide Pipeline, WellFormed, Reaches, ClientAgrees, Agrees;
    forall e | e in Pipeline(t) ensures WellFormed(e) && Agrees(t, e) { assert Agrees(s, e); SameAgrees(s, t, e); }
    PipelineGrows(s, t, {});
  }

  /** A yield only moves a baseline on. */
  lemma YieldMoves(s: System)
    requires s.phase.Yielding?
    ensures Pipeline(Yielded(s)) == Pipeline(s)
    ensures s.phase.rest != [] ==> s.phase.rest[0] in Pipeline(s)
  {
    if s.phase.rest != [] { assert s.phase.rest == [s.phase.rest[0]] + s.phase.rest[1..]; }
  }

  lemma SameAgrees(s: System, t: System, e: TopicEvent)
    requires WorkerOk(s) && t.revisions == s.revisions && t.values == s.values && Agrees(s, e)
    ensures WorkerOk(t) && Agrees(t, e)
  { }

  lemma OnTopicMember(es: seq<TopicEvent>, e: TopicEvent)
    ensures e in OnTopic(es, e.topic) <==> e in es
  {
  }

  /** Baselines are the worker's own snapshots, so the stream carries its latest from here on. */
  lemma BaselinesKeepInv(s: System, bs: seq<TopicEvent>)
    requires Inv(s) && Enabled(s, BuildBaselines(bs))
    ensures Inv(s.(phase := Yielding(bs)))
  {
    var t := s.(phase := Yielding(bs));
    forall e | e in bs ensures WellFormed(e) && Agrees(s, e) {
      OnTopicMember(bs, e);
      if Replicated(e.topic) {
        assert OnTopic(bs, e.topic) == if e.topic in s.queue.topics then [Snapshot(s, e.topic)] else [];
      }
    }
    forall u | Replicated(u) && u in s.queue.topics ensures Reaches(t, u) {
      OnTopicMember(bs, Snapshot(s, u));
      assert Snapshot(s, u) in Pipeline(t);
    }
    forall u | Replicated(u) ensures ClientAgrees(t, u) { assert ClientAgrees(s, u); }
    hide WellFormed, OnTopic;
  }

  /** Every step of the system keeps the invariant. */
  lemma StepKeepsInv(s: System, e: Event)
    requires Inv(s)
    ensures Inv(Step(s, e))
  {
    if Enabled(s, e) {
      match e {
        case Publish(t, v, epoch) => PublishKeepsInv(s, t, v, epoch);
        case PublishOther(other) => OfferKeepsInv(s, other, {});
        case BuildBaselines(bs) => BaselinesKeepInv(s, bs);
        case YieldBaseline => YieldKeepsInv(s);
        case TakeNext => TakeKeepsInv(s);
        case CloseStream(error) => CloseKeepsInv(s, error);
        case Deliver => DeliverKeepsInv(s);
      }
    }
    hide InvBut, Enabled, Offered, Published, Yielded, Taken, Closed, Delivered;
  }

  lemma StepKeepsTopics(s: System, e: Event)
    requires WorkerOk(s) && PipelineWellFormed(s)
    ensures Step(s, e).queue.topics == s.queue.topics
  {
    hide WellFormed, HoldsUnits, Coalesces;
  }

  ghost function Run(s: System, es: seq<Event>): (t: System)
    requires Inv(s)
    ensures Inv(t) && t.queue.topics == s.queue.topics
  {
    if es == [] then s
    else
      var before := Run(s, es[..|es| - 1]);
      StepKeepsTopics(before, es[|es| - 1]);
      StepKeepsInv(before, es[|es| - 1]);
      Step(before, es[|es| - 1])
  }

  /** Nothing is under way: baselines yielded, queue empty, wire empty. */
  predicate Drained(s: System) {
    Open(s) && (s.phase == Looping || s.phase == Blocked) && s.queue.values == [] && s.wire == []
  }

  /** Replica agreement: from any worker and any page whose trackers are reset, for any
      interleaving of publications, baseline building, takes and deliveries, whenever the
      stream is open and drained the page's revision and value of every subscribed,
      replicated topic are the worker's latest. */
  lemma DrainedReplicaAgrees(revisions: map<Topic, nat>, values: map<Topic, Body>, epoch: string,
                             topics: set<Topic>, page: Client, es: seq<Event>, t: Topic)
    requires WorkerOk(Begin(revisions, values, epoch, topics, page))
    requires Replicated(t) && t in topics
    ensures var s0 := Begin(revisions, values, epoch, topics, page);
            && Inv(s0)
            && var s := Run(s0, es);
               Drained(s) ==>
                 Cached(s.client, t) == s.revisions[t] && t in s.client.data && s.client.data[t] == s.values[t]
  {
    BeginEstablishes(revisions, values, epoch, topics, page);
    var s := Run(Begin(revisions, values, epoch, topics, page), es);
    if Drained(s) {
      assert Pipeline(s) == [];
      assert Reaches(s, t) && ClientAgrees(s, t);
    }
  }

  // ------------------------------------------- what the latest is, and that it comes

  predicate Publishes(e: Event, t: Topic) { e.Publish? && e.topic == t && e.value.Data? }

  /** The revision and value of a topic after the publications among the events. */
  function Latest(revision: nat, value: Body, es: seq<Event>, t: Topic): (nat, Body) {
    if es == [] then (revision, value)
    else
      var (r, v) := Latest(revision, value, es[..|es| - 1], t);
      if Publishes(es[|es| - 1], t) then (r + 1, es[|es| - 1].value) else (r, v)
  }

  /** The worker's revision and value of a topic. */
  ghost function Held(s: System, t: Topic): (nat, Body)
    requires Inv(s) && Replicated(t)
  {
    (s.revisions[t], s.values[t])
  }

  lemma OfferedFrame(s: System, e: TopicEvent)
    ensures Offered(s, e).revisions == s.revisions && Offered(s, e).values == s.values
  {
    hide Enqueue;
  }

  lemma OnlyPublishChanges(s: System, e: Event)
    requires Inv(s)
    ensures var t := Step(s, e);
            if Enabled(s, e) && e.Publish?
            then t.revisions == s.revisions[e.topic := t.revisions[e.topic]] && t.values == s.values[e.topic := e.value]
              && t.revisions[e.topic] == s.revisions[e.topic] + 1
            else t.revisions == s.revisions && t.values == s.values
  {
    if Enabled(s, e) {
      match e
      case Publish(u, v, epoch) => var s1 := Bumped(s, u, v, epoch); OfferedFrame(s1, Snapshot(s1, u));
      case PublishOther(other) => OfferedFrame(s, other);
      case TakeNext => hide Take;
      case CloseStream(_) => hide Close;
      case _ =>
    }
    hide Offered, Pipeline, OnTopic, Apply, GeneratorOk, WellFormed, HoldsUnits, Reaches, ClientAgrees, Agrees;
  }

  lemma StepFollowsPublication(s: System, e: Event, t: Topic)
    requires Inv(s) && Replicated(t)
    ensures Inv(Step(s, e))
    ensures Held(Step(s, e), t) == if Publishes(e, t) then (Held(s, t).0 + 1, e.value) else Held(s, t)
  {
    StepKeepsInv(s, e);
    OnlyPublishChanges(s, e);
    hide Step, Inv, InvBut;
  }

  /** The worker's revision of a topic counts its publications and its value is the last one published. */
  lemma {:induction false} WorkerFollowsPublications(s: System, es: seq<Event>, t: Topic)
    requires Inv(s) && Replicated(t)
    ensures Held(Run(s, es), t) == Latest(s.revisions[t], s.values[t], es, t)
  {
    if es != [] {
      WorkerFollowsPublications(s, es[..|es| - 1], t);
      StepFollowsPublication(Run(s, es[..|es| - 1]), es[|es| - 1], t);
      hide Step, Inv, Publishes, InvBut, Held;
    }
  }

  /** The step that brings the page nearer to the worker, while there is one. */
  function Forward(s: System): Option<Event> {
    if s.wire != [] then Some(Deliver)
    else if s.phase.Yielding? then Some(YieldBaseline)
    else if s.phase == Looping && s.queue.values != [] then Some(TakeNext)
    else None
  }

  function Distance(s: System): nat {
    |s.wire| + 2 * |s.queue.values| + if s.phase.Yielding? then 2 * |s.phase.rest| + 1 else 0
  }

  lemma ForwardComesNearer(s: System)
    requires Inv(s) && Open(s) && s.phase != AwaitingBaselines && Forward(s).Some?
    ensures var t := Step(s, Forward(s).value);
            && Distance(t) < Distance(s) && Open(t) && t.phase != AwaitingBaselines
            && t.revisions == s.revisions && t.values == s.values && t.queue.topics == s.queue.topics
  {
    hide Apply, WellFormed, Coalesces, OnTopic;
  }

  /** The system once the generator and the page have caught up. */
  ghost function CaughtUp(s: System): System
    requires Inv(s) && Open(s) && s.phase != AwaitingBaselines
    decreases Distance(s)
  {
    if Forward(s).None? then s
    else
      ForwardComesNearer(s);
      StepKeepsInv(s, Forward(s).value);
      CaughtUp(Step(s, Forward(s).value))
  }

  /** From every state of an open stream with its baselines built, yields, takes and deliveries alone
      drain it, and the page then has the worker's revision and value of every subscribed topic. */
  lemma {:induction false} CatchingUpDrains(s: System)
    requires Inv(s) && Open(s) && s.phase != AwaitingBaselines
    ensures var t := CaughtUp(s);
            && Drained(t) && t.revisions == s.revisions && t.values == s.values
            && forall u :: Replicated(u) && u in s.queue.topics ==>
                 u in s.revisions && u in s.values
                   && Cached(t.client, u) == s.revisions[u] && u in t.client.data && t.client.data[u] == s.values[u]
    decreases Distance(s)
  {
    if Forward(s).None? {
      forall u | Replicated(u) && u in s.queue.topics
        ensures Cached(s.client, u) == s.revisions[u] && u in s.client.data && s.client.data[u] == s.values[u]
      {
        assert Pipeline(s) == [];
        assert Reaches(s, u) && ClientAgrees(s, u);
      }
    } else {
      hide InvBut, Enabled, Step, Drained, Replicated;
      ForwardComesNearer(s);
      StepKeepsInv(s, Forward(s).value);
      CatchingUpDrains(Step(s, Forward(s).value));
    }
  }
}
