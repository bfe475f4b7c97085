/** Final-I/O leases of the coordinator's authority: exclusive write leases, and read leases that
    share one reference-counted record entry per generation, changed only under a promise mutex. */
module AuthorityLeases {
  import opened Prelude

  /** An authority record with the keys of its activeIoLeases. */
  datatype Record = Record(generation: nat, leases: set<nat>)

  datatype WriteLease = WriteLease(record: nat, entry: nat, released: bool)

  /** A shared read lease: the record entry it holds, and its reference count. */
  datatype Group = Group(record: nat, generation: nat, entry: nat, references: nat)

  datatype Handle = Handle(group: nat, released: bool)

  datatype Operation = Acquire | Release(group: nat)

  /** `awaiting`: the operation at the head of the mutex queue awaits the authority check. */
  datatype State = State(
    generation: nat,
    records: seq<Record>,
    nextEntry: nat,
    writes: seq<WriteLease>,
    groups: seq<Group>,
    shared: Option<nat>,
    handles: seq<Handle>,
    queue: seq<Operation>,
    awaiting: bool)

  datatype Event =
    | Claim
    | AcquireWrite(current: bool)     // the authority check's answer, with no step between it and the registration
    | CallRead
    | RunNext
    | Resume(current: bool)
    | ReleaseRead(handle: nat)
    | ReleaseWrite(write: nat)

  // ------------------------------------------------------------ transitions

  function Claimed(s: State): State {
    s.(generation := s.generation + 1, records := s.records + [Record(s.generation + 1, {})])
  }

  function Put(records: seq<Record>, r: nat, entry: nat): seq<Record>
    requires r < |records|
  {
    records[r := records[r].(leases := records[r].leases + {entry})]
  }

  function Delete(records: seq<Record>, r: nat, entry: nat): seq<Record>
    requires r < |records|
  {
    records[r := records[r].(leases := records[r].leases - {entry})]
  }

  function WriteAcquired(s: State, current: bool): State {
    if !current || s.records == [] then s
    else
      var r := |s.records| - 1;
      s.(records := Put(s.records, r, s.nextEntry), nextEntry := s.nextEntry + 1,
        writes := s.writes + [WriteLease(r, s.nextEntry, false)])
  }

  /** The shared lease belongs to the current generation. */
  predicate SharedIsCurrent(s: State) {
    s.shared.Some? && s.shared.value < |s.groups| && s.groups[s.shared.value].generation == s.generation
  }

  /** An acquire joins the shared lease, or goes on to await the authority check. */
  function AcquireBegun(s: State): State
    requires s.queue != []
  {
    if SharedIsCurrent(s) then
      var g := s.shared.value;
      s.(groups := s.groups[g := s.groups[g].(references := s.groups[g].references + 1)],
         handles := s.handles + [Handle(g, false)], queue := s.queue[1..])
    else s.(awaiting := true)
  }

  function AcquireResumed(s: State, current: bool): State
    requires s.queue != []
  {
    if !current || s.records == [] then s.(awaiting := false, queue := s.queue[1..])
    else
      var r := |s.records| - 1;
      s.(records := Put(s.records, r, s.nextEntry), nextEntry := s.nextEntry + 1,
         groups := s.groups + [Group(r, s.records[r].generation, s.nextEntry, 1)], shared := Some(|s.groups|),
         handles := s.handles + [Handle(|s.groups|, false)], awaiting := false, queue := s.queue[1..])
  }

  function Max(a: int, b: int): int { if a < b then b else a }

  function ReleaseBegun(s: State, g: nat): State
    requires s.queue != [] && g < |s.groups| && s.groups[g].record < |s.records|
  {
    var left := Max(0, s.groups[g].references - 1);
    var s1 := s.(groups := s.groups[g := s.groups[g].(references := left)], queue := s.queue[1..]);
    if left != 0 then s1
    else s1.(shared := if s.shared == Some(g) then None
      else s.shared, records := Delete(s.records, s.groups[g].record, s.groups[g].entry))
  }

  function ReadReleased(s: State, h: nat): State
    requires h < |s.handles|
  {
    if s.handles[h].released then s
    else s.(handles := s.handles[h := s.handles[h].(released := true)],
      queue := s.queue + [Release(s.handles[h].group)])
  }

  function WriteReleased(s: State, w: nat): State
    requires w < |s.writes| && s.writes[w].record < |s.records|
  {
    if s.writes[w].released then s
    else s.(writes := s.writes[w := s.writes[w].(released := true)],
      records := Delete(s.records, s.writes[w].record, s.writes[w].entry))
  }

  predicate Enabled(s: State, e: Event) {
    match e
    case RunNext => s.queue != [] && !s.awaiting
      && (s.queue[0].Release? ==> var g := s.queue[0].group; g < |s.groups| && s.groups[g].record < |s.records|)
    case Resume(_) => s.queue != [] && s.awaiting
    case ReleaseRead(h) => h < |s.handles|
    case ReleaseWrite(w) => w < |s.writes| && s.writes[w].record < |s.records|
    case _ => true
  }

  function Step(s: State, e: Event): State {
    if !Enabled(s, e) then s
    else match e
      case Claim => Claimed(s)
      case AcquireWrite(current) => WriteAcquired(s, current)
      case CallRead => s.(queue := s.queue + [Acquire])
      case RunNext => if s.queue[0].Acquire? then AcquireBegun(s) else ReleaseBegun(s, s.queue[0].group)
      case Resume(current) => AcquireResumed(s, current)
      case ReleaseRead(h) => ReadReleased(s, h)
      case ReleaseWrite(w) => WriteReleased(s, w)
  }

  function Initial(): State { State(0, [], 0, [], [], None, [], [], false) }

  function Run(es: seq<Event>): State {
    if es == [] then Initial() else Step(Run(es[..|es| - 1]), es[|es| - 1])
  }

  // --------------------------------------------------------------- invariant

  /** Handles on the group that were not released. */
  function Unreleased(handles: seq<Handle>, g: nat): nat {
    if handles == [] then 0
    else
      var h := handles[|handles| - 1];
      Unreleased(handles[..|handles| - 1], g) + (if h.group == g && !h.released then 1 else 0)
  }

  /** Releases of the group waiting for the mutex. */
  function Releasing(queue: seq<Operation>, g: nat): nat {
    if queue == [] then 0 else (if queue[0] == Release(g) then 1 else 0) + Releasing(queue[1..], g)
  }

  predicate Live(g: Group) { g.references > 0 }

  ghost predicate Shape(s: State) {
    && s.generation == |s.records|
    && (forall r :: 0 <= r < |s.records| ==> s.records[r].generation == r + 1)
    && (forall w :: w in s.writes ==> w.record < |s.records|)
    && (forall g :: g in s.groups ==> g.record < |s.records| && g.generation == g.record + 1)
    && (forall h :: h in s.handles ==> h.group < |s.groups|)
    && (forall o :: o in s.queue && o.Release? ==> o.group < |s.groups|)
  }

  /** Every lease and every group has an entry of its own. */
  predicate EntriesOk(writes: seq<WriteLease>, groups: seq<Group>, nextEntry: nat) {
    && (forall w :: w in writes ==> w.entry < nextEntry)
    && (forall g :: g in groups ==> g.entry < nextEntry)
    && (forall a, b :: 0 <= a < b < |writes| ==> writes[a].entry != writes[b].entry)
    && (forall a, b :: 0 <= a < b < |groups| ==> groups[a].entry != groups[b].entry)
    && (forall w, g :: w in writes && g in groups ==> w.entry != g.entry)
  }

  /** The entry belongs to an unreleased write lease or a live read group on the record. */
  ghost predicate Held(writes: seq<WriteLease>, groups: seq<Group>, r: nat, entry: nat) {
    || (exists w :: w in writes && w.record == r && w.entry == entry && !w.released)
    || (exists g :: g in groups && g.record == r && g.entry == entry && Live(g))
  }

  ghost predicate RecordsOk(records: seq<Record>, writes: seq<WriteLease>, groups: seq<Group>) {
    forall r: nat, e: nat :: r < |records| ==> (e in records[r].leases <==> Held(writes, groups, r, e))
  }

  predicate CountsOk(groups: seq<Group>, handles: seq<Handle>, queue: seq<Operation>) {
    forall g: nat :: g < |groups| ==> groups[g].references == Unreleased(handles, g) + Releasing(queue, g)
  }

  predicate SharedOk(groups: seq<Group>, shared: Option<nat>, generation: nat, queue: seq<Operation>, awaiting: bool) {
    && (shared.Some? ==> shared.value < |groups| && Live(groups[shared.value]))
    && (forall g: nat :: g < |groups| && Live(groups[g]) && groups[g].generation == generation ==> shared == Some(g))
    && (forall a: nat, b: nat :: a < b < |groups| && Live(groups[a]) && Live(groups[b]) ==>
      groups[a].record != groups[b].record)
    && (awaiting ==> queue != [] && queue[0] == Acquire && forall g :: g in groups && Live(g) ==>
      g.generation != generation)
  }

  ghost predicate Inv(s: State) {
    && Shape(s)
    && EntriesOk(s.writes, s.groups, s.nextEntry)
    && RecordsOk(s.records, s.writes, s.groups)
    && CountsOk(s.groups, s.handles, s.queue)
    && SharedOk(s.groups, s.shared, s.generation, s.queue, s.awaiting)
  }

  // ------------------------------------------------------------------ lemmas

  lemma HandleAdded(handles: seq<Handle>, h: Handle)
    ensures forall g ::
              Unreleased(handles + [h], g) == Unreleased(handles, g) + (if h.group == g && !h.released then 1 else 0)
  {
    assert (handles + [h])[..|handles|] == handles;
  }

  lemma {:induction false} HandleReleased(handles: seq<Handle>, k: nat, g: nat)
    requires k < |handles| && !handles[k].released
    ensures Unreleased(handles[k := handles[k].(released := true)], g)
        + (if handles[k].group == g then 1 else 0) == Unreleased(handles, g)
  {
    var n := |handles| - 1;
    var after := handles[k := handles[k].(released := true)];
    if k < n {
      HandleReleased(handles[..n], k, g);
      assert after[..n] == handles[..n][k := handles[k].(released := true)];
    } else {
      assert after[..n] == handles[..n];
    }
  }

  lemma {:induction false} OperationQueued(queue: seq<Operation>, o: Operation, g: nat)
    ensures Releasing(queue + [o], g) == Releasing(queue, g) + (if o == Release(g) then 1 else 0)
  {
    if queue != [] {
      OperationQueued(queue[1..], o, g);
      assert (queue + [o])[1..] == queue[1..] + [o];
    }
  }

  lemma {:induction false} NoHandlesYet(handles: seq<Handle>, queue: seq<Operation>, g: nat)
    requires forall h :: h in handles ==> h.group < g
    requires forall o :: o in queue && o.Release? ==> o.group < g
    ensures Unreleased(handles, g) == 0 && Releasing(queue, g) == 0
    decreases |handles| + |queue|
  {
    if handles != [] {
      NoHandlesYet(handles[..|handles| - 1], [], g);
    }
    if queue != [] {
      NoHandlesYet([], queue[1..], g);
    }
  }

  lemma ClaimKeeps(s: State)
    requires Inv(s)
    ensures Inv(Claimed(s))
  {
    var t := Claimed(s);
    hide EntriesOk, CountsOk;
    forall e: nat ensures !Held(t.writes, t.groups, |s.records|, e) { }
  }

  lemma WriteKeeps(s: State, current: bool)
    requires Inv(s)
    ensures Inv(WriteAcquired(s, current))
  {
    if current && s.records != [] {
      var t := WriteAcquired(s, current);
      var r := |s.records| - 1;
      hide CountsOk, SharedOk;
      assert t.writes == s.writes + [WriteLease(r, s.nextEntry, false)];
      HeldByWrite(s.writes, s.groups, WriteLease(r, s.nextEntry, false));
    }
  }

  lemma HeldByWrite(writes: seq<WriteLease>, groups: seq<Group>, w: WriteLease)
    ensures forall r, e :: Held(writes + [w], groups, r, e) <==>
        Held(writes, groups, r, e) || (!w.released && w.record == r && w.entry == e)
  {
    forall r, e | !w.released && w.record == r && w.entry == e ensures Held(writes + [w], groups, r, e) {
      assert w in writes + [w];
    }
  }

  lemma HeldByGroup(writes: seq<WriteLease>, groups: seq<Group>, g: Group)
    ensures forall r, e :: Held(writes, groups + [g], r, e) <==>
        Held(writes, groups, r, e) || (Live(g) && g.record == r && g.entry == e)
  {
    forall r, e | Live(g) && g.record == r && g.entry == e ensures Held(writes, groups + [g], r, e) {
      assert g in groups + [g];
    }
  }

  lemma WriteReleaseKeeps(s: State, w: nat)
    requires Inv(s) && w < |s.writes|
    ensures s.writes[w].record < |s.records| && Inv(WriteReleased(s, w))
  {
    var l := s.writes[w];
    assert l in s.writes;
    if !l.released {
      var t := WriteReleased(s, w);
      hide CountsOk, SharedOk;
      assert forall x :: x in t.writes ==> x == l.(released := true) || (x in s.writes && x.entry != l.entry);
      assert EntriesOk(t.writes, t.groups, t.nextEntry);
      forall r, e ensures Held(t.writes, t.groups, r, e) <==> Held(s.writes, s.groups, r, e) && e != l.entry {
        if Held(s.writes, s.groups, r, e) && e != l.entry { HeldStays(s, w, r, e); }
      }
    }
  }

  lemma HeldStays(s: State, w: nat, r: nat, e: nat)
    requires w < |s.writes| && Held(s.writes, s.groups, r, e) && e != s.writes[w].entry
    ensures Held(s.writes[w := s.writes[w].(released := true)], s.groups, r, e)
  {
    var after := s.writes[w := s.writes[w].(released := true)];
    if x :| x in s.writes && x.record == r && x.entry == e && !x.released {
      var k :| 0 <= k < |s.writes| && s.writes[k] == x;
      assert after[k] == x;
    }
  }

  /** A group whose count changes keeps its entry exactly while it is live. */
  lemma HeldByCount(writes: seq<WriteLease>, groups: seq<Group>, nextEntry: nat, g: nat, n: nat)
    requires EntriesOk(writes, groups, nextEntry) && g < |groups| && Live(groups[g])
    ensures var after := groups[g := groups[g].(references := n)];
            && EntriesOk(writes, after, nextEntry)
            && forall r, e :: Held(writes, after, r, e) <==>
              Held(writes, groups, r, e) && (n == 0 ==> e != groups[g].entry)
  {
    var l := groups[g];
    var after := groups[g := l.(references := n)];
    assert forall x :: x in after ==> x == l.(references := n) || (x in groups && x.entry != l.entry);
    forall r, e ensures Held(writes, after, r, e) <==> Held(writes, groups, r, e) && (n == 0 ==> e != l.entry) {
      if Held(writes, groups, r, e) && (n == 0 ==> e != l.entry) {
        if x :| x in groups && x.record == r && x.entry == e && Live(x) {
          var k :| 0 <= k < |groups| && groups[k] == x;
          assert after[k] in after;
        }
      }
    }
  }

  lemma JoinKeeps(s: State)
    requires Inv(s) && s.queue != [] && s.queue[0] == Acquire && !s.awaiting
    ensures Inv(AcquireBegun(s))
  {
    var t := AcquireBegun(s);
    if SharedIsCurrent(s) {
      var g := s.shared.value;
      HandleAdded(s.handles, Handle(g, false));
      HeldByCount(s.writes, s.groups, s.nextEntry, g, s.groups[g].references + 1);
      hide EntriesOk, Held;
      assert SharedOk(t.groups, t.shared, t.generation, t.queue, t.awaiting);
      assert s.queue == [Acquire] + s.queue[1..];
    }
  }

  lemma ResumeKeeps(s: State, current: bool)
    requires Inv(s) && s.queue != [] && s.awaiting
    ensures Inv(AcquireResumed(s, current))
  {
    hide EntriesOk, RecordsOk, CountsOk;
    assert s.queue == [Acquire] + s.queue[1..];
    if !current || s.records == [] { RefusedCounts(s); }
    if current && s.records != [] {
      var t := AcquireResumed(s, current);
      ResumeRecords(s);
      ResumeCounts(s);
      assert forall k :: 0 <= k < |s.groups| ==> t.groups[k] == s.groups[k] && s.groups[k] in s.groups;
    }
  }

  lemma RefusedCounts(s: State)
    requires Inv(s) && s.queue != [] && s.queue[0] == Acquire
    ensures CountsOk(s.groups, s.handles, s.queue[1..])
  { hide EntriesOk, RecordsOk, SharedOk; }

  lemma ResumeRecords(s: State)
    requires Inv(s) && s.queue != [] && s.records != []
    ensures var t := AcquireResumed(s, true);
            && RecordsOk(t.records, t.writes, t.groups)
            && EntriesOk(t.writes, t.groups, t.nextEntry)
  {
    var r := |s.records| - 1;
    HeldByGroup(s.writes, s.groups, Group(r, s.records[r].generation, s.nextEntry, 1));
    hide CountsOk, SharedOk, Held;
  }

  lemma ResumeCounts(s: State)
    requires Inv(s) && s.queue != [] && s.queue[0] == Acquire && s.records != []
    ensures var t := AcquireResumed(s, true); CountsOk(t.groups, t.handles, t.queue)
  {
    var g := |s.groups|;
    assert s.queue == [Acquire] + s.queue[1..];
    HandleAdded(s.handles, Handle(g, false));
    NoHandlesYet(s.handles, s.queue, g);
    hide EntriesOk, RecordsOk, SharedOk;
  }

  lemma ReleaseKeeps(s: State, g: nat)
    requires Inv(s) && s.queue != [] && s.queue[0] == Release(g) && !s.awaiting
    ensures g < |s.groups| && s.groups[g].record < |s.records|
    ensures Live(s.groups[g]) && Inv(ReleaseBegun(s, g))
  {
    assert s.queue == [Release(g)] + s.queue[1..];
    assert s.groups[g] in s.groups;
    var n := s.groups[g].references - 1;
    HeldByCount(s.writes, s.groups, s.nextEntry, g, n);
    ReleaseShared(s, g);
    hide EntriesOk, Held, SharedOk;
  }

  lemma ReleaseShared(s: State, g: nat)
    requires Inv(s) && s.queue != [] && s.queue[0] == Release(g) && !s.awaiting && g < |s.groups|
        && s.groups[g].record < |s.records|
    ensures Live(s.groups[g])
    ensures var t := ReleaseBegun(s, g); SharedOk(t.groups, t.shared, t.generation, t.queue, t.awaiting)
  {
    hide EntriesOk, RecordsOk;
  }

  lemma ReadReleaseKeeps(s: State, h: nat)
    requires Inv(s) && h < |s.handles|
    ensures Inv(ReadReleased(s, h))
  {
    if !s.handles[h].released {
      var t := ReadReleased(s, h);
      var x := s.handles[h].group;
      assert s.handles[h] in s.handles;
      forall g
        ensures Releasing(t.queue, g) + Unreleased(t.handles, g) == Releasing(s.queue, g) + Unreleased(s.handles, g)
      {
        HandleReleased(s.handles, h, g);
        OperationQueued(s.queue, Release(x), g);
      }
      hide EntriesOk, RecordsOk;
    }
  }

  lemma CallKeeps(s: State)
    requires Inv(s)
    ensures Inv(s.(queue := s.queue + [Acquire]))
  {
    forall g ensures Releasing(s.queue + [Acquire], g) == Releasing(s.queue, g) {
      OperationQueued(s.queue, Acquire, g);
    }
    hide EntriesOk, RecordsOk;
  }

  lemma StepKeepsInv(s: State, e: Event)
    requires Inv(s)
    ensures Inv(Step(s, e))
  {
    if Enabled(s, e) {
      match e
      case Claim => ClaimKeeps(s);
      case AcquireWrite(current) => WriteKeeps(s, current);
      case CallRead => CallKeeps(s);
      case RunNext => if s.queue[0].Acquire? { JoinKeeps(s); } else { ReleaseKeeps(s, s.queue[0].group); }
      case Resume(current) => ResumeKeeps(s, current);
      case ReleaseRead(h) => ReadReleaseKeeps(s, h);
      case ReleaseWrite(w) => WriteReleaseKeeps(s, w);
    }
    hide *;
  }

  lemma {:induction false} RunKeepsInv(es: seq<Event>)
    ensures Inv(Run(es))
  {
    if es != [] {
      RunKeepsInv(es[..|es| - 1]);
      StepKeepsInv(Run(es[..|es| - 1]), es[|es| - 1]);
    }
  }

  // ---------------------------------------------------------------- theorems

  /** Whoever holds an unreleased read handle is covered by an entry in the record of its own generation. */
  lemma HolderIsCovered(es: seq<Event>, h: nat)
    requires h < |Run(es).handles| && !Run(es).handles[h].released
    ensures var s := Run(es); var g := s.handles[h].group;
            && g < |s.groups| && Live(s.groups[g]) && s.groups[g].record < |s.records|
            && s.groups[g].entry in s.records[s.groups[g].record].leases
            && s.records[s.groups[g].record].generation == s.groups[g].generation
            && (s.groups[g].generation == s.generation ==> s.shared == Some(g))
  {
    RunKeepsInv(es);
    HandleCovers(Run(es), h);
    hide *;
  }

  lemma HandleCovers(s: State, h: nat)
    requires Inv(s) && h < |s.handles| && !s.handles[h].released
    ensures var g := s.handles[h].group;
            && g < |s.groups| && Live(s.groups[g]) && s.groups[g].record < |s.records|
            && s.groups[g].entry in s.records[s.groups[g].record].leases
            && s.records[s.groups[g].record].generation == s.groups[g].generation
            && (s.groups[g].generation == s.generation ==> s.shared == Some(g))
  {
    assert s.handles[h] in s.handles;
    var g := s.handles[h].group;
    HandleCounts(s.handles, h);
    assert s.groups[g] in s.groups;
    assert Held(s.writes, s.groups, s.groups[g].record, s.groups[g].entry);
  }

  lemma WriteCovers(s: State, w: nat)
    requires Inv(s) && w < |s.writes| && !s.writes[w].released
    ensures s.writes[w].record < |s.records| && s.writes[w].entry in s.records[s.writes[w].record].leases
  {
    assert s.writes[w] in s.writes;
    assert Held(s.writes, s.groups, s.writes[w].record, s.writes[w].entry);
    hide EntriesOk, CountsOk, SharedOk;
  }

  lemma {:induction false} HandleCounts(handles: seq<Handle>, h: nat)
    requires h < |handles| && !handles[h].released
    ensures Unreleased(handles, handles[h].group) > 0
  {
    if h < |handles| - 1 { HandleCounts(handles[..|handles| - 1], h); }
  }

  function OpenWrites(writes: seq<WriteLease>, r: nat): nat {
    if writes == [] then 0
    else
      var w := writes[|writes| - 1];
      OpenWrites(writes[..|writes| - 1], r) + (if w.record == r && !w.released then 1 else 0)
  }

  /** An active lease count is the unreleased writes taken on that record, plus one if a read group
      lives on it; the group's references are its unreleased handles and its waiting releases. */
  lemma RecordCounts(es: seq<Event>, r: nat)
    requires r < |Run(es).records|
    ensures var s := Run(es);
            && |s.records[r].leases| == OpenWrites(s.writes, r)
              + (if exists g :: g in s.groups && g.record == r && Live(g) then 1 else 0)
            && forall g: nat :: g < |s.groups| ==>
              s.groups[g].references == Unreleased(s.handles, g) + Releasing(s.queue, g)
  {
    RunKeepsInv(es);
    var s := Run(es);
    hide Run;
    var ws := OpenEntries(s.writes, r);
    OpenEntriesCount(s.writes, r);
    forall e ensures e in ws <==> exists w :: w in s.writes && w.record == r && w.entry == e && !w.released {
      OpenEntriesAre(s.writes, r, e);
    }
    hide OpenEntries, OpenWrites;
    if x :| x in s.groups && x.record == r && Live(x) {
      var k :| 0 <= k < |s.groups| && s.groups[k] == x;
      assert s.records[r].leases == ws + {x.entry} by {
        forall e: nat ensures e in s.records[r].leases <==> e in ws + {x.entry} { OnlyGroup(s, r, k, e); }
      }
    } else {
      assert s.records[r].leases == ws by {
        forall e: nat ensures e in s.records[r].leases <==> e in ws {
          assert e in s.records[r].leases <==> Held(s.writes, s.groups, r, e);
        }
      }
    }
  }

  lemma OnlyGroup(s: State, r: nat, k: nat, e: nat)
    requires Inv(s) && r < |s.records| && k < |s.groups| && Live(s.groups[k]) && s.groups[k].record == r
    ensures e in s.records[r].leases <==>
      e == s.groups[k].entry || exists w :: w in s.writes && w.record == r && w.entry == e && !w.released
  {
    hide CountsOk;
    assert e in s.records[r].leases <==> Held(s.writes, s.groups, r, e);
    forall x | x in s.groups && x.record == r && Live(x) ensures x == s.groups[k] {
      var j :| 0 <= j < |s.groups| && s.groups[j] == x;
    }
  }

  function OpenEntries(writes: seq<WriteLease>, r: nat): set<nat> {
    if writes == [] then {}
    else
      var w := writes[|writes| - 1];
      OpenEntries(writes[..|writes| - 1], r) + (if w.record == r && !w.released then {w.entry} else {})
  }

  lemma {:induction false} OpenEntriesAre(writes: seq<WriteLease>, r: nat, e: nat)
    ensures e in OpenEntries(writes, r) <==> exists w :: w in writes && w.record == r && w.entry == e && !w.released
  {
    if writes != [] {
      var n := |writes| - 1;
      OpenEntriesAre(writes[..n], r, e);
      assert writes == writes[..n] + [writes[n]];
    }
  }

  lemma {:induction false} OpenEntriesCount(writes: seq<WriteLease>, r: nat)
    requires forall a, b :: 0 <= a < b < |writes| ==> writes[a].entry != writes[b].entry
    ensures |OpenEntries(writes, r)| == OpenWrites(writes, r)
  {
    if writes != [] {
      var n := |writes| - 1;
      OpenEntriesCount(writes[..n], r);
      OpenEntriesAre(writes[..n], r, writes[n].entry);
    }
  }

  /** A release runs on a positive count, so the clamp at zero never acts. A release of an older
      generation leaves the current record, and the current generation's shared lease, alone. */
  lemma ReleaseStaysInItsGeneration(es: seq<Event>)
    requires var s := Run(es); s.queue != [] && s.queue[0].Release? && !s.awaiting
    ensures var s, t := Run(es), Run(es + [RunNext]);
            var g := s.queue[0].group;
            && g < |s.groups| == |t.groups|
            && t.groups[g].references == s.groups[g].references - 1
            && (forall k :: 0 <= k < |s.groups| && k != g ==> t.groups[k] == s.groups[k])
            && |t.records| == |s.records|
            && (forall r :: 0 <= r < |s.records| && s.records[r].generation != s.groups[g].generation ==>
              t.records[r] == s.records[r])
            && (SharedIsCurrent(s) && s.groups[g].generation != s.generation ==>
              t.shared == s.shared && SharedIsCurrent(t))
  {
    RunKeepsInv(es);
    var s := Run(es);
    var g := s.queue[0].group;
    ReleaseKeeps(s, g);
    assert (es + [RunNext])[..|es|] == es;
    assert s.groups[g] in s.groups;
    hide EntriesOk, RecordsOk, CountsOk;
  }

  /** With everything released and the mutex idle, no record keeps an entry and nothing is shared. */
  lemma ReleasedAllIsEmpty(es: seq<Event>)
    requires var s := Run(es);
             && s.queue == []
             && (forall w :: w in s.writes ==> w.released) && (forall h :: h in s.handles ==> h.released)
    ensures var s := Run(es); s.shared == None && forall r :: 0 <= r < |s.records| ==> s.records[r].leases == {}
  {
    RunKeepsInv(es);
    NothingHeldIsEmpty(Run(es));
    hide Run;
  }

  lemma NothingHeldIsEmpty(s: State)
    requires Inv(s) && s.queue == []
    requires (forall w :: w in s.writes ==> w.released) && (forall h :: h in s.handles ==> h.released)
    ensures s.shared == None && forall r :: 0 <= r < |s.records| ==> s.records[r].leases == {}
  {
    forall g: nat | g < |s.groups| ensures !Live(s.groups[g]) { NothingUnreleased(s.handles, g); }
    forall r | 0 <= r < |s.records| ensures s.records[r].leases == {} {
      forall e: nat ensures e !in s.records[r].leases { assert !Held(s.writes, s.groups, r, e); }
    }
  }

  lemma {:induction false} NothingUnreleased(handles: seq<Handle>, g: nat)
    requires forall h :: h in handles ==> h.released
    ensures Unreleased(handles, g) == 0
  {
    if handles != [] { NothingUnreleased(handles[..|handles| - 1], g); }
  }

  /** Readers of one generation share one entry. */
  lemma ReadersShare(es: seq<Event>, h: nat, k: nat)
    requires var s := Run(es); h < |s.handles| && k < |s.handles| && !s.handles[h].released && !s.handles[k].released
    requires var s := Run(es); s.handles[h].group < |s.groups| && s.handles[k].group < |s.groups|
    requires var s := Run(es); s.groups[s.handles[h].group].generation == s.groups[s.handles[k].group].generation
    ensures Run(es).handles[h].group == Run(es).handles[k].group
  {
    hide *;
    RunKeepsInv(es);
    HolderIsCovered(es, h);
    HolderIsCovered(es, k);
    OneGroupPerRecord(Run(es), Run(es).handles[h].group, Run(es).handles[k].group);
  }

  lemma OneGroupPerRecord(s: State, a: nat, b: nat)
    requires Inv(s) && a < |s.groups| && b < |s.groups| && Live(s.groups[a]) && Live(s.groups[b])
    requires s.groups[a].generation == s.groups[b].generation
    ensures a == b
  {
    hide EntriesOk, RecordsOk, CountsOk;
    assert s.groups[a] in s.groups && s.groups[b] in s.groups;
  }

  // ------------------------------------------------ what each call is given

  /** The first turn of a read joins the shared lease iff that lease is of the current generation, and
      otherwise goes on to ask the authority, without a trace. */
  lemma ReadTurnDecides(es: seq<Event>)
    requires var s := Run(es); s.queue != [] && !s.awaiting && s.queue[0].Acquire?
    ensures var s, t := Run(es), Run(es + [RunNext]);
            var joins := exists g: nat ::
              g < |s.groups| && s.groups[g].references > 0 && s.groups[g].generation == s.generation;
            if joins then
              && s.shared.Some? && s.shared.value < |s.groups|
              && var g := s.shared.value;
                 && s.groups[g].generation == s.generation
                 && t.queue == s.queue[1..] && !t.awaiting && t.handles == s.handles + [Handle(g, false)]
                 && t.groups == s.groups[g := s.groups[g].(references := s.groups[g].references + 1)]
                 && t.records == s.records && t.writes == s.writes && t.shared == s.shared
            else t == s.(awaiting := true)
  {
    RunKeepsInv(es);
    assert (es + [RunNext])[..|es|] == es;
    var s := Run(es);
    hide Run, EntriesOk, RecordsOk, CountsOk;
    if SharedIsCurrent(s) {
      var g := s.shared.value;
      assert Live(s.groups[g]) && s.groups[g].references > 0 && s.groups[g].generation == s.generation;
    } else {
      forall g: nat | g < |s.groups| && s.groups[g].generation == s.generation ensures s.groups[g].references == 0 {
        assert Live(s.groups[g]) ==> s.shared == Some(g);
      }
    }
  }

  /** The second turn gives a handle of a new shared lease iff the authority is current, with an entry
      of its own in the record of that moment. */
  lemma ReadAnswerDecides(es: seq<Event>, current: bool)
    requires var s := Run(es); s.queue != [] && s.awaiting
    ensures var s, t := Run(es), Run(es + [Resume(current)]);
            && t.queue == s.queue[1..] && !t.awaiting && t.generation == s.generation && t.writes == s.writes
            && if current && s.generation > 0 then
                 && s.generation == |s.records|
                 && var r, entry := s.generation - 1, s.nextEntry;
                    && entry !in s.records[r].leases
                    && t.records == s.records[r := Record(s.generation, s.records[r].leases + {entry})]
                    && t.groups == s.groups + [Group(r, s.generation, entry, 1)]
                    && t.shared == Some(|s.groups|) && t.handles == s.handles + [Handle(|s.groups|, false)]
               else t.records == s.records && t.groups == s.groups && t.handles == s.handles && t.shared == s.shared
  {
    RunKeepsInv(es);
    assert (es + [Resume(current)])[..|es|] == es;
    NewEntryIsFree(Run(es));
    hide Run, EntriesOk, RecordsOk, CountsOk;
  }

  lemma NewEntryIsFree(s: State)
    requires Inv(s)
    ensures forall r: nat :: r < |s.records| ==> s.nextEntry !in s.records[r].leases
  {
    forall r: nat | r < |s.records| ensures s.nextEntry !in s.records[r].leases {
      assert !Held(s.writes, s.groups, r, s.nextEntry);
    }
    hide CountsOk, SharedOk;
  }

  /** A write lease is given iff the authority is current, with an entry of its own. */
  lemma WriteAnswerDecides(es: seq<Event>, current: bool)
    ensures var s, t := Run(es), Run(es + [AcquireWrite(current)]);
            if current && s.generation > 0 then
              && s.generation == |s.records|
              && var r, entry := s.generation - 1, s.nextEntry;
                 && entry !in s.records[r].leases
                 && t.records == s.records[r := Record(s.generation, s.records[r].leases + {entry})]
                 && t.writes == s.writes + [WriteLease(r, entry, false)]
                 && t.handles == s.handles && t.groups == s.groups && t.queue == s.queue
            else t == s
  {
    RunKeepsInv(es);
    assert (es + [AcquireWrite(current)])[..|es|] == es;
    NewEntryIsFree(Run(es));
    hide Run, EntriesOk, RecordsOk, CountsOk;
  }

  function Claims(es: seq<Event>): nat {
    if es == [] then 0 else Claims(es[..|es| - 1]) + if es[|es| - 1].Claim? then 1 else 0
  }

  lemma OnlyClaimsClaim(s: State, e: Event)
    requires Inv(s)
    ensures Step(s, e).generation == s.generation + if e.Claim? then 1 else 0
  { }

  /** The generation counts the claims, and each claim begins a record of its own, without leases. */
  lemma {:induction false} GenerationCountsClaims(es: seq<Event>)
    ensures var s, t := Run(es), Run(es + [Claim]);
            && s.generation == Claims(es) == |s.records|
            && t.generation == Claims(es) + 1 && t.records == s.records + [Record(Claims(es) + 1, {})]
  {
    RunKeepsInv(es);
    assert (es + [Claim])[..|es|] == es;
    if es != [] {
      var before := es[..|es| - 1];
      GenerationCountsClaims(before);
      RunKeepsInv(before);
      OnlyClaimsClaim(Run(before), es[|es| - 1]);
      assert Run(es).generation == Claims(es);
    }
    var s := Run(es);
    assert s.generation == |s.records|;
    assert Run(es + [Claim]) == Claimed(s);
    hide *;
  }

  function Acquires(queue: seq<Operation>): nat {
    if queue == [] then 0 else (if queue[0].Acquire? then 1 else 0) + Acquires(queue[1..])
  }

  /** The turn of whoever holds the mutex, under an authority that stays current. */
  function Turn(s: State): Event { if s.awaiting then Resume(true) else RunNext }

  lemma TurnServes(s: State)
    requires Inv(s) && s.queue != [] && s.generation > 0
    ensures var t := Step(s, Turn(s));
            && t.generation == s.generation && (t.awaiting ==> !s.awaiting)
            && (t.queue == s.queue || t.queue == s.queue[1..])
            && (t.queue == s.queue <==> t.awaiting)
            && |t.handles| == |s.handles| + if t.queue != s.queue && s.queue[0].Acquire? then 1 else 0
  {
    assert s.queue[0] in s.queue;
    if s.queue[0].Release? {
      assert s.groups[s.queue[0].group] in s.groups;
      assert !s.awaiting;
    }
    hide EntriesOk, RecordsOk, CountsOk;
    assert |s.queue[1..]| < |s.queue|;
  }

  /** The state once all waiting operations had their turns. */
  ghost function AllServed(s: State): State
    requires Inv(s) && s.generation > 0
    decreases 2 * |s.queue| - (if s.awaiting then 1 else 0)
  {
    if s.queue == [] then s
    else
      TurnServes(s);
      StepKeepsInv(s, Turn(s));
      AllServed(Step(s, Turn(s)))
  }

  /** Under an authority that stays current the mutex comes free, and every waiting read got its handle. */
  lemma {:induction false} MutexServesAll(s: State)
    requires Inv(s) && s.generation > 0
    ensures AllServed(s).queue == [] && |AllServed(s).handles| == |s.handles| + Acquires(s.queue)
    decreases 2 * |s.queue| - (if s.awaiting then 1 else 0)
  {
    if s.queue != [] {
      TurnServes(s);
      StepKeepsInv(s, Turn(s));
      MutexServesAll(Step(s, Turn(s)));
      hide Inv, Step, Turn;
    }
  }

  // ---------------------------------------------------------- the authority

  /** The closure variables of the worker authority. Records, groups and handles are objects in the
      worker; here they are entries of sequences, and their index is their identity. */
  class WorkerAuthority {
    var generation: nat
    var records: seq<Record>
    var nextEntry: nat
    var writes: seq<WriteLease>
    var groups: seq<Group>
    var shared: Option<nat>
    var handles: seq<Handle>
    var queue: seq<Operation>
    var awaiting: bool

    ghost function View(): State
      reads this
    {
      State(generation, records, nextEntry, writes, groups, shared, handles, queue, awaiting)
    }

    constructor ()
      ensures View() == Initial() && Inv(View())
    {
      generation, records, nextEntry, writes, groups := 0, [], 0, [], [];
      shared, handles, queue, awaiting := None, [], [], false;
    }

    method ClaimAuthority()
      requires Inv(View())
      modifies this
      ensures View() == Step(old(View()), Claim) && Inv(View())
    {
      hide Inv;
      StepKeepsInv(View(), Claim);
      generation := generation + 1;
      records := records + [Record(generation, {})];
    }

    method TakeExclusive() returns (r: nat, entry: nat)
      requires records != []
      modifies this`records, this`nextEntry
      ensures r == |old(records)| - 1 && entry == old(nextEntry) && nextEntry == entry + 1
      ensures records == Put(old(records), r, entry)
    {
      r, entry := |records| - 1, nextEntry;
      nextEntry := nextEntry + 1;
      records := records[r := records[r].(leases := records[r].leases + {entry})];
    }

    method AcquireWriteLease(current: bool) returns (lease: Result<nat, string>)
      requires Inv(View())
      modifies this
      ensures View() == Step(old(View()), AcquireWrite(current)) && Inv(View())
      ensures lease.Ok? <==> current && old(records) != []
      ensures lease.Ok? ==> lease.value == old(|writes|) && lease.value < |writes| && !writes[lease.value].released
    {
      hide Inv;
      StepKeepsInv(View(), AcquireWrite(current));
      if !current { return Err("upgrade.authority_stale"); }
      if records == [] { return Err("upgrade.authority_unavailable"); }
      var r, entry := TakeExclusive();
      writes := writes + [WriteLease(r, entry, false)];
      lease := Ok(|writes| - 1);
    }

    method CallAcquireRead()
      requires Inv(View())
      modifies this
      ensures View() == Step(old(View()), CallRead) && Inv(View())
    {
      hide Inv;
      StepKeepsInv(View(), CallRead);
      queue := queue + [Acquire];
    }

    /** The mutex admits the next operation; the handle it yields, if it completes an acquire. */
    method RunNextOperation() returns (handle: Option<nat>)
      requires Inv(View()) && queue != [] && !awaiting
      modifies this
      ensures View() == Step(old(View()), RunNext) && Inv(View())
      ensures handle == if |handles| > old(|handles|) then Some(old(|handles|)) else None
    {
      assert queue[0].Release? ==> queue[0] in queue && groups[queue[0].group] in groups;
      hide Inv, AcquireBegun, ReleaseBegun;
      StepKeepsInv(View(), RunNext);
      handle := None;
      if queue[0].Acquire? { handle := BeginAcquire(); } else { BeginRelease(queue[0].group); }
    }

    method BeginAcquire() returns (handle: Option<nat>)
      requires queue != []
      modifies this
      ensures View() == AcquireBegun(old(View()))
      ensures handle == if |handles| > old(|handles|) then Some(old(|handles|)) else None
    {
      if shared.Some? && shared.value < |groups| && groups[shared.value].generation == generation {
        var g := shared.value;
        groups := groups[g := groups[g].(references := groups[g].references + 1)];
        handles := handles + [Handle(g, false)];
        queue := queue[1..];
        return Some(|handles| - 1);
      }
      awaiting := true;
      handle := None;
    }

    method BeginRelease(g: nat)
      requires queue != [] && g < |groups| && groups[g].record < |records|
      modifies this
      ensures View() == ReleaseBegun(old(View()), g) && handles == old(handles)
    {
      queue := queue[1..];
      groups := groups[g := groups[g].(references := Max(0, groups[g].references - 1))];
      if groups[g].references != 0 { return; }
      if shared == Some(g) { shared := None; }
      var r := groups[g].record;
      records := records[r := records[r].(leases := records[r].leases - {groups[g].entry})];
    }

    /** The authority check of the acquire at the head of the queue answers. */
    method ResumeAcquire(current: bool) returns (handle: Result<nat, string>)
      requires Inv(View()) && queue != [] && awaiting
      modifies this
      ensures View() == Step(old(View()), Resume(current)) && Inv(View())
      ensures handle.Ok? <==> current && old(records) != []
      ensures handle.Ok? ==> handle.value == old(|handles|) && handle.value < |handles|
    {
      hide Inv;
      StepKeepsInv(View(), Resume(current));
      awaiting, queue := false, queue[1..];
      if !current { return Err("upgrade.authority_stale"); }
      if records == [] { return Err("upgrade.authority_unavailable"); }
      var r, entry := TakeExclusive();
      groups := groups + [Group(r, records[r].generation, entry, 1)];
      shared := Some(|groups| - 1);
      handles := handles + [Handle(|groups| - 1, false)];
      handle := Ok(|handles| - 1);
    }

    method ReleaseReadHandle(h: nat)
      requires Inv(View()) && h < |handles|
      modifies this
      ensures View() == Step(old(View()), ReleaseRead(h)) && Inv(View())
    {
      hide Inv;
      StepKeepsInv(View(), ReleaseRead(h));
      if handles[h].released { return; }
      handles := handles[h := handles[h].(released := true)];
      queue := queue + [Release(handles[h].group)];
    }

    method ReleaseWriteLease(w: nat)
      requires Inv(View()) && w < |writes|
      modifies this
      ensures View() == Step(old(View()), ReleaseWrite(w)) && Inv(View())
    {
      assert writes[w] in writes;
      hide Inv;
      StepKeepsInv(View(), ReleaseWrite(w));
      if writes[w].released { return; }
      writes := writes[w := writes[w].(released := true)];
      var r := writes[w].record;
      records := records[r := records[r].(leases := records[r].leases - {writes[w].entry})];
    }
  }
}
