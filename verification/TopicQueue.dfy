/** The bounded topic queue between the coordinator worker and one page: events are
    enqueued, taken one promise at a time, coalesced when they are adjacent storage
    counters, and dropped as a whole when the queue overflows or is closed. */
module TopicQueue {
  import opened Prelude

  datatype Topic =
    | SessionState | BackgroundSnapshot | ChainFees | ChainHeight | StorageState
    | MsfileState | SatEvents | ChannelEvents | WorkerUnits | AssetData

  /** `summary` and `authorityRecovery` are object identities: the source compares references. */
  datatype Body =
    | Storage(activity: Option<int>, walletGeneration: Option<string>, status: string, summary: int,
      authorityRecovery: int)
    | Units(units: seq<string>)
    | Data(data: int)

  datatype TopicEvent = TopicEvent(topic: Topic, revision: nat, sessionEpoch: string, body: Body)

  /** canCoalesceStorageActivity on a queued event and its successor. */
  predicate Coalesces(previous: TopicEvent, next: TopicEvent) {
    && previous.topic == StorageState && next.topic == StorageState
    && previous.body.Storage? && next.body.Storage?
    && previous.body.activity.Some? && next.body.activity.Some?
    && previous.sessionEpoch == next.sessionEpoch
    && previous.body.walletGeneration == next.body.walletGeneration
    && previous.body.status == next.body.status
    && previous.body.summary == next.body.summary
    && previous.body.authorityRecovery == next.body.authorityRecovery
  }

  datatype StreamError = Overflow | Revoked | Replaced | Cancelled

  /** How a take settles. */
  datatype Taken = Item(event: TopicEvent) | Done | Failed(error: StreamError)

  datatype Settlement = Settlement(take: nat, result: Taken)

  const QUEUE_LIMIT: nat := 256

  /** `takes` numbers the takes; a waiter is the number of its take. */
  datatype Queue = Queue(
    topics: set<Topic>,
    values: seq<TopicEvent>,
    waiters: seq<nat>,
    closed: bool,
    error: Option<StreamError>,
    takes: nat)

  function Fresh(topics: set<Topic>): Queue { Queue(topics, [], [], false, None, 0) }

  function Ending(error: Option<StreamError>): Taken {
    if error.Some? then Failed(error.value) else Done
  }

  function Close(q: Queue, error: Option<StreamError>): (Queue, seq<Settlement>) {
    if q.closed then (q, [])
    else (q.(values := [], waiters := [], closed := true, error := error),
          seq(|q.waiters|, k requires 0 <= k < |q.waiters| => Settlement(q.waiters[k], Ending(error))))
  }

  predicate Admits(q: Queue, e: TopicEvent) { !q.closed && e.topic in q.topics }

  predicate Merges(q: Queue, e: TopicEvent) { q.values != [] && Coalesces(q.values[|q.values| - 1], e) }

  predicate Overflows(q: Queue, e: TopicEvent) { q.waiters == [] && !Merges(q, e) && |q.values| >= QUEUE_LIMIT }

  function Enqueue(q: Queue, e: TopicEvent): (Queue, seq<Settlement>) {
    if !Admits(q, e) then (q, [])
    else if q.waiters != [] then (q.(waiters := q.waiters[1..]), [Settlement(q.waiters[0], Item(e))])
    else if Merges(q, e) then (q.(values := q.values[|q.values| - 1 := e]), [])
    else if |q.values| >= QUEUE_LIMIT then Close(q, Some(Overflow))
    else (q.(values := q.values + [e]), [])
  }

  function Take(q: Queue): (Queue, seq<Settlement>) {
    var next := q.(takes := q.takes + 1);
    if q.values != [] then (next.(values := q.values[1..]), [Settlement(q.takes, Item(q.values[0]))])
    else if q.closed then (next, [Settlement(q.takes, Ending(q.error))])
    else (next.(waiters := q.waiters + [q.takes]), [])
  }

  // ---------------------------------------------------------------- runs

  datatype Operation = Offer(event: TopicEvent) | TakeOne | End(error: Option<StreamError>)

  /** A queue with what happened to it: accepted events, settled takes in settling
      order, and the values thrown away when it closed. */
  datatype History = History(queue: Queue, accepted: seq<TopicEvent>, settled: seq<Settlement>, lost: seq<TopicEvent>)

  function Perform(h: History, op: Operation): History {
    var q := h.queue;
    match op
    case Offer(e) =>
      var (q', out) := Enqueue(q, e);
      History(q', if Admits(q, e) && !Overflows(q, e) then h.accepted + [e] else h.accepted, h.settled + out,
              if Admits(q, e) && Overflows(q, e) then q.values else h.lost)
    case TakeOne =>
      var (q', out) := Take(q);
      History(q', h.accepted, h.settled + out, h.lost)
    case End(error) =>
      var (q', out) := Close(q, error);
      History(q', h.accepted, h.settled + out, if q.closed then h.lost else q.values)
  }

  function Run(topics: set<Topic>, ops: seq<Operation>): History {
    if ops == [] then History(Fresh(topics), [], [], [])
    else Perform(Run(topics, ops[..|ops| - 1]), ops[|ops| - 1])
  }

  // ------------------------------------------------------------- thinning

  /** `kept` is `all` minus events each immediately followed, in `all`, by one it may coalesce with. */
  ghost predicate Thinned(all: seq<TopicEvent>, kept: seq<TopicEvent>) {
    if all == [] then kept == []
    else
      || (kept != [] && kept[0] == all[0] && Thinned(all[1..], kept[1..]))
      || (|all| > 1 && Coalesces(all[0], all[1]) && Thinned(all[1..], kept))
  }

  lemma {:induction false} ThinnedAppend(all: seq<TopicEvent>, kept: seq<TopicEvent>, e: TopicEvent)
    requires Thinned(all, kept)
    ensures Thinned(all + [e], kept + [e])
  {
    if all == [] {
      assert (all + [e])[1..] == [] && (kept + [e])[1..] == [];
    } else {
      assert (all + [e])[1..] == all[1..] + [e];
      if kept != [] && kept[0] == all[0] && Thinned(all[1..], kept[1..]) {
        ThinnedAppend(all[1..], kept[1..], e);
        assert (kept + [e])[1..] == kept[1..] + [e];
      } else {
        ThinnedAppend(all[1..], kept, e);
      }
    }
  }

  lemma {:induction false} ThinnedNothing(all: seq<TopicEvent>)
    requires Thinned(all, [])
    ensures all == []
  {
    if all != [] { ThinnedNothing(all[1..]); }
  }

  /** Replacing the newest kept event by one it coalesces with deletes exactly that event. */
  lemma {:induction false} ThinnedReplace(all: seq<TopicEvent>, kept: seq<TopicEvent>, last: TopicEvent, e: TopicEvent)
    requires Thinned(all + [last], kept + [last]) && Coalesces(last, e)
    ensures Thinned(all + [last] + [e], kept + [e])
  {
    var a, k := all + [last], kept + [last];
    assert (a + [e])[1..] == a[1..] + [e];
    if all == [] {
      assert a[1..] == [] && Thinned(a[1..], k[1..]) ==> kept == [];
      assert k[1..] == [];
      assert (a + [e])[1..] == [e] && (kept + [e])[1..] == [];
      assert Thinned([e], [e]) by { assert [e][1..] == []; }
    } else {
      assert a[1..] == all[1..] + [last];
      if kept != [] && kept[0] == a[0] && Thinned(a[1..], k[1..]) {
        assert k[1..] == kept[1..] + [last] && (kept + [e])[1..] == kept[1..] + [e];
        ThinnedReplace(all[1..], kept[1..], last, e);
      } else if kept == [] && Thinned(a[1..], k[1..]) {
        assert k[1..] == [];
        ThinnedNothing(a[1..]);
      } else {
        ThinnedReplace(all[1..], kept, last, e);
      }
    }
  }

  /** The newest accepted event is never deleted. */
  lemma {:induction false} ThinnedKeepsLast(all: seq<TopicEvent>, kept: seq<TopicEvent>)
    requires Thinned(all, kept) && all != []
    ensures kept != [] && kept[|kept| - 1] == all[|all| - 1]
  {
    if kept != [] && kept[0] == all[0] && Thinned(all[1..], kept[1..]) {
      if |all| > 1 { ThinnedKeepsLast(all[1..], kept[1..]); }
    } else {
      ThinnedKeepsLast(all[1..], kept);
    }
  }

  function OnTopic(es: seq<TopicEvent>, t: Topic): (r: seq<TopicEvent>)
  {
    if es == [] then [] else (if es[0].topic == t then [es[0]] else []) + OnTopic(es[1..], t)
  }

  /** No event of any topic but storage.state is ever deleted, and their order stays. */
  lemma {:induction false} ThinnedKeepsOtherTopics(all: seq<TopicEvent>, kept: seq<TopicEvent>, t: Topic)
    requires Thinned(all, kept) && t != StorageState
    ensures OnTopic(all, t) == OnTopic(kept, t)
  {
    if all != [] {
      if kept != [] && kept[0] == all[0] && Thinned(all[1..], kept[1..]) {
        ThinnedKeepsOtherTopics(all[1..], kept[1..], t);
      } else {
        ThinnedKeepsOtherTopics(all[1..], kept, t);
      }
    }
  }

  // ------------------------------------------------------------- theorems

  /** The events delivered so far, in order. */
  function Delivered(settled: seq<Settlement>): seq<TopicEvent> {
    if settled == [] then []
    else Delivered(settled[..|settled| - 1]) +
         (match settled[|settled| - 1].result case Item(e) => [e] case _ => [])
  }

  lemma {:induction false} DeliveredAppend(a: seq<Settlement>, s: Settlement)
    ensures Delivered(a + [s]) == Delivered(a) + (match s.result case Item(e) => [e] case _ => [])
  {
    assert (a + [s])[..|a|] == a;
  }

  lemma {:induction false} DeliveredEndings(a: seq<Settlement>, b: seq<Settlement>)
    requires forall k :: 0 <= k < |b| ==> !b[k].result.Item?
    ensures Delivered(a + b) == Delivered(a)
  {
    if b != [] {
      var b' := b[..|b| - 1];
      DeliveredEndings(a, b');
      DeliveredAppend(a + b', b[|b| - 1]);
      assert a + b == a + b' + [b[|b| - 1]];
    } else {
      assert a + b == a;
    }
  }

  ghost predicate QueueOk(q: Queue) {
    && (q.values == [] || q.waiters == [])
    && |q.values| <= QUEUE_LIMIT
    && (q.closed ==> q.values == [] && q.waiters == [])
  }

  /** The k-th take gets the k-th settlement; the takes still waiting are the newest ones. */
  ghost predicate TakesInOrder(h: History) {
    && |h.settled| + |h.queue.waiters| == h.queue.takes
    && (forall k :: 0 <= k < |h.settled| ==> h.settled[k].take == k)
    && (forall k :: 0 <= k < |h.queue.waiters| ==> h.queue.waiters[k] == |h.settled| + k)
  }

  /** Items come first, and what follows is the one ending of a closed queue. */
  ghost predicate EndsOnce(h: History) {
    forall k :: 0 <= k < |h.settled| && !h.settled[k].result.Item? ==>
      && h.queue.closed && h.settled[k].result == Ending(h.queue.error)
      && forall m :: k < m < |h.settled| ==> !h.settled[m].result.Item?
  }

  /** Nothing accepted is missing: delivered and queued together are the accepted events, thinned. */
  ghost predicate NoGap(h: History) {
    && Thinned(h.accepted, Delivered(h.settled) + h.queue.values + h.lost)
    && (!h.queue.closed ==> h.lost == [])
  }

  ghost predicate HistoryOk(h: History) {
    QueueOk(h.queue) && TakesInOrder(h) && EndsOnce(h) && NoGap(h)
  }

  lemma ShapeKept(h: History, op: Operation)
    requires QueueOk(h.queue) && TakesInOrder(h) && EndsOnce(h)
    ensures QueueOk(Perform(h, op).queue) && TakesInOrder(Perform(h, op)) && EndsOnce(Perform(h, op))
  {
    hide Coalesces, Thinned, Delivered;
  }

  lemma OfferKeepsNoGap(h: History, e: TopicEvent)
    requires QueueOk(h.queue) && NoGap(h)
    ensures NoGap(Perform(h, Offer(e)))
  {
    hide Thinned, Delivered, Coalesces;
    var q, h' := h.queue, Perform(h, Offer(e));
    var sent := Delivered(h.settled);
    if !Admits(q, e) {
      assert h'.settled == h.settled;
    } else if q.waiters != [] {
      assert sent + q.values + h.lost == sent;
      DeliveredAppend(h.settled, Settlement(q.waiters[0], Item(e)));
      ThinnedAppend(h.accepted, sent, e);
      assert sent + [e] + q.values + h.lost == sent + [e];
    } else if Merges(q, e) {
      var n, m := |q.values| - 1, |h.accepted| - 1;
      var last := q.values[n];
      assert sent + q.values + h.lost == sent + q.values[..n] + [last];
      ThinnedEndsAlike(h.accepted, sent + q.values[..n], last);
      assert h.accepted == h.accepted[..m] + [last];
      ThinnedReplace(h.accepted[..m], sent + q.values[..n], last, e);
      assert sent + h'.queue.values + h'.lost == sent + q.values[..n] + [e];
      assert h'.settled == h.settled;
    } else if Overflows(q, e) {
      assert h'.settled == h.settled;
      assert sent + [] + q.values == sent + q.values + h.lost;
    } else {
      ThinnedAppend(h.accepted, sent + q.values + h.lost, e);
      assert sent + (q.values + [e]) + h.lost == sent + q.values + h.lost + [e];
      assert h'.settled == h.settled;
    }
  }

  lemma ThinnedEndsAlike(all: seq<TopicEvent>, kept: seq<TopicEvent>, last: TopicEvent)
    requires Thinned(all, kept + [last])
    ensures all != [] && all[|all| - 1] == last
  {
    if all != [] { ThinnedKeepsLast(all, kept + [last]); }
  }

  lemma TakeKeepsNoGap(h: History)
    requires NoGap(h)
    ensures NoGap(Perform(h, TakeOne))
  {
    hide Thinned, Delivered;
    var q, h' := h.queue, Perform(h, TakeOne);
    var sent := Delivered(h.settled);
    if q.values != [] {
      DeliveredAppend(h.settled, Settlement(q.takes, Item(q.values[0])));
      assert sent + [q.values[0]] + q.values[1..] + h.lost == sent + q.values + h.lost;
    } else if q.closed {
      DeliveredAppend(h.settled, Settlement(q.takes, Ending(q.error)));
      assert sent + [] == sent;
    } else {
      assert h'.settled == h.settled;
    }
  }

  lemma EndKeepsNoGap(h: History, error: Option<StreamError>)
    requires NoGap(h)
    ensures NoGap(Perform(h, End(error)))
  {
    hide Thinned, Delivered;
    var q, out := h.queue, Close(h.queue, error).1;
    if q.closed {
      assert h.settled + [] == h.settled;
    } else {
      assert forall k :: 0 <= k < |out| ==> out[k] == Settlement(q.waiters[k], Ending(error));
      DeliveredEndings(h.settled, out);
      assert Delivered(h.settled) + [] + q.values == Delivered(h.settled) + q.values + h.lost;
    }
  }

  /** The stream theorem: over every interleaving of enqueues, takes and closes, deliveries
      and queue together are the accepted events up to coalescing, the k-th take gets the
      k-th settlement, at most 256 values wait, values and waiters never coexist, and after
      the stream has ended every take gets that one ending. */
  lemma {:induction false} StreamHasNoGap(topics: set<Topic>, ops: seq<Operation>)
    ensures HistoryOk(Run(topics, ops))
  {
    if ops == [] {
      assert Delivered([]) + [] + [] == [];
    } else {
      var h := Run(topics, ops[..|ops| - 1]);
      StreamHasNoGap(topics, ops[..|ops| - 1]);
      ShapeKept(h, ops[|ops| - 1]);
      match ops[|ops| - 1] {
        case Offer(e) => OfferKeepsNoGap(h, e);
        case TakeOne => TakeKeepsNoGap(h);
        case End(error) => EndKeepsNoGap(h, error);
      }
      hide NoGap, TakesInOrder, EndsOnce, QueueOk, Perform;
    }
  }

  /** While the stream is open the page has received and is about to receive, on every topic
      but storage.state, exactly what was accepted; on all topics the newest event is there. */
  lemma OpenStreamLosesNothing(topics: set<Topic>, ops: seq<Operation>, t: Topic)
    requires !Run(topics, ops).queue.closed
    ensures var h := Run(topics, ops); var kept := Delivered(h.settled) + h.queue.values;
            && (t != StorageState ==> OnTopic(kept, t) == OnTopic(h.accepted, t))
            && (h.accepted != [] ==> kept != [] && kept[|kept| - 1] == h.accepted[|h.accepted| - 1])
  {
    StreamHasNoGap(topics, ops);
    var h := Run(topics, ops);
    var kept := Delivered(h.settled) + h.queue.values;
    assert kept + [] == kept;
    if t != StorageState { ThinnedKeepsOtherTopics(h.accepted, kept, t); }
    if h.accepted != [] { ThinnedKeepsLast(h.accepted, kept); }
  }

  /** An overflow happens exactly when an admitted event meets 256 queued values it cannot
      merge into; it ends the stream with the overflow error and throws the queue away. */
  lemma OverflowEndsStream(topics: set<Topic>, ops: seq<Operation>, e: TopicEvent)
    ensures var q := Run(topics, ops).queue; var (q', out) := Enqueue(q, e);
            && (!q.closed && q'.closed <==> Admits(q, e) && |q.values| == QUEUE_LIMIT && !Merges(q, e))
            && (!q.closed && q'.closed ==>
                  && q'.error == Some(Overflow) && q'.values == [] && out == []
                  && Take(q').1 == [Settlement(q'.takes, Failed(Overflow))])
  {
    StreamHasNoGap(topics, ops);
  }

  // ------------------------------------------------- what may be left out

  /** What an event shows apart from the counters: of a storage state with an activity, neither its
      revision nor the activity. */
  function Shown(e: TopicEvent): TopicEvent {
    if e.topic == StorageState && e.body.Storage? && e.body.activity.Some?
    then e.(revision := 0, body := e.body.(activity := Some(0)))
    else e
  }

  /** What a page sees change along a list of events. */
  function Changes(es: seq<TopicEvent>): (r: seq<TopicEvent>)
    ensures es == [] <==> r == []
    ensures es != [] ==> r[0] == Shown(es[0])
  {
    if |es| <= 1 then seq(|es|, k requires 0 <= k < |es| => Shown(es[k]))
    else if Shown(es[0]) == Shown(es[1]) then Changes(es[1..])
    else [Shown(es[0])] + Changes(es[1..])
  }

  /** A deleted event differs from its successor in the counters alone: the page sees the same changes. */
  lemma {:induction false} ThinnedShowsAllChanges(all: seq<TopicEvent>, kept: seq<TopicEvent>)
    requires Thinned(all, kept)
    ensures Changes(all) == Changes(kept)
  {
    if all != [] {
      if kept != [] && kept[0] == all[0] && Thinned(all[1..], kept[1..]) {
        ThinnedShowsAllChanges(all[1..], kept[1..]);
        hide Shown, Thinned;
        if |all| > 1 {
          assert Changes(all[1..])[0] == Shown(all[1]);
          assert Changes(kept[1..])[0] == Shown(kept[1]);
        } else {
          assert kept == all;
        }
      } else {
        ThinnedShowsAllChanges(all[1..], kept);
      }
    }
  }

  /** The same for an open stream: what the page has seen change, and sees change once it has taken the
      rest, is all that the accepted events change. */
  lemma OpenStreamShowsAllChanges(topics: set<Topic>, ops: seq<Operation>)
    requires !Run(topics, ops).queue.closed
    ensures var h := Run(topics, ops); Changes(Delivered(h.settled) + h.queue.values) == Changes(h.accepted)
  {
    StreamHasNoGap(topics, ops);
    var h := Run(topics, ops);
    var kept := Delivered(h.settled) + h.queue.values;
    assert kept + [] == kept;
    ThinnedShowsAllChanges(h.accepted, kept);
  }

  function Offers(topics: set<Topic>, ops: seq<Operation>): seq<TopicEvent> {
    if ops == [] then []
    else
      Offers(topics, ops[..|ops| - 1]) +
        match ops[|ops| - 1]
        case Offer(e) => if e.topic in topics then [e] else []
        case _ => []
  }

  /** While the stream is open every offered event of a subscribed topic has been accepted, in order. */
  lemma {:induction false} OpenStreamAcceptsAll(topics: set<Topic>, ops: seq<Operation>)
    requires !Run(topics, ops).queue.closed
    ensures Run(topics, ops).accepted == Offers(topics, ops) && Run(topics, ops).queue.topics == topics
  {
    if ops != [] {
      var h := Run(topics, ops[..|ops| - 1]);
      assert !h.queue.closed;
      OpenStreamAcceptsAll(topics, ops[..|ops| - 1]);
      StreamHasNoGap(topics, ops[..|ops| - 1]);
      hide Coalesces;
    }
  }

  /** What an offered event does to an open queue: handed to the longest waiting take, merged into the
      newest value, the end of the stream, or one more value. */
  lemma OfferDecides(topics: set<Topic>, ops: seq<Operation>, e: TopicEvent)
    ensures var q := Run(topics, ops).queue; var (t, out) := Enqueue(q, e); var n := |q.values|;
      var merged := n > 0 && e.topic == StorageState && e.body.Storage? && e.body.activity.Some?
        && q.values[n - 1].body.Storage? && q.values[n - 1].body.activity.Some?
        && e == q.values[n - 1].(revision := e.revision,
          body := q.values[n - 1].body.(activity := e.body.activity));
      if q.closed || e.topic !in q.topics then t == q && out == []
      else if q.waiters != [] then
        t.waiters == q.waiters[1..] && t.values == [] && !t.closed && out == [Settlement(q.waiters[0], Item(e))]
      else
        && t.waiters == [] && out == []
        && if merged then t.values == q.values[..n - 1] + [e] && !t.closed
           else if n < QUEUE_LIMIT then t.values == q.values + [e] && !t.closed
           else t.values == [] && t.closed && t.error == Some(Overflow)
  {
    StreamHasNoGap(topics, ops);
    var q := Run(topics, ops).queue;
    hide Run;
    if q.values != [] { assert q.values[..|q.values| - 1] + [e] == q.values[|q.values| - 1 := e]; }
  }

  // ---------------------------------------------------------------- in place

  /** The queue as the worker holds it: arrays updated in place, promises settled on the way. */
  class TopicStreamQueue {
    const topics: set<Topic>
    var values: seq<TopicEvent>
    var waiters: seq<nat>
    var closed: bool
    var error: Option<StreamError>
    var takes: nat

    function View(): Queue
      reads this
    {
      Queue(topics, values, waiters, closed, error, takes)
    }

    constructor (topics: set<Topic>)
      ensures View() == Fresh(topics)
    {
      this.topics := topics;
      values, waiters, closed, error, takes := [], [], false, None, 0;
    }

    /** closeCoordinatorTopicStreamQueue; returns the promises it settles. */
    method CloseQueue(error: Option<StreamError>) returns (settled: seq<Settlement>)
      modifies this
      ensures (View(), settled) == Close(old(View()), error)
    {
      settled := [];
      if closed { return; }
      closed := true;
      this.error := error;
      var pending := waiters;
      waiters := [];
      values := [];
      for k := 0 to |pending|
        invariant View() == Close(old(View()), error).0
        invariant settled == Close(old(View()), error).1[..k]
      {
        settled := settled + [Settlement(pending[k], Ending(error))];
      }
      assert settled == Close(old(View()), error).1;
    }

    /** enqueueCoordinatorTopicEvent. */
    method EnqueueEvent(event: TopicEvent) returns (settled: seq<Settlement>)
      modifies this
      ensures (View(), settled) == Enqueue(old(View()), event)
    {
      settled := [];
      if closed || event.topic !in topics { return; }
      if waiters != [] {
        settled := [Settlement(waiters[0], Item(event))];
        waiters := waiters[1..];
        return;
      }
      if values != [] && Coalesces(values[|values| - 1], event) {
        values := values[|values| - 1 := event];
        return;
      }
      if |values| >= QUEUE_LIMIT {
        settled := CloseQueue(Some(Overflow));
        return;
      }
      values := values + [event];
    }

    /** takeCoordinatorTopicEvent: settles at once, or waits. */
    method TakeEvent() returns (settled: seq<Settlement>)
      modifies this
      ensures (View(), settled) == Take(old(View()))
    {
      settled := [];
      if values != [] {
        settled := [Settlement(takes, Item(values[0]))];
        values := values[1..];
      } else if closed {
        settled := [Settlement(takes, Ending(error))];
      } else {
        waiters := waiters + [takes];
      }
      takes := takes + 1;
    }
  }
}
