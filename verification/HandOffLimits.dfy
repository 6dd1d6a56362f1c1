/** When the hand-off fails. A step that leaves the next reader without a cursor does no harm exactly in
    the cases `Harmless` names: in every other one the same subscription, its installed position and
    its shard's parents being what they are, can go on with none but ordinary steps and skip a record
    that was handed out and never settled. */
module HandOffLimits {
  import opened Wrappers
  import opened Cursor
  import opened Tracking
  import opened Lease
  import opened ShardProtocol
  import opened ShardSafety
  import opened HandOff
  import opened Anchor
  import opened HandOffSafety

  // ----- Going on -----

  ghost predicate Path(me: Instance, s: Shard, actions: seq<Action>)
    decreases |actions|
  {
    actions == []
    || (Enabled(s, actions[0]) && Solo(s, me, actions[0]) && Path(me, Do(s, actions[0]), actions[1..]))
  }

  function End(s: Shard, actions: seq<Action>): Shard
    decreases |actions|
  {
    if actions == [] || !Enabled(s, actions[0]) then s else End(Do(s, actions[0]), actions[1..])
  }

  /** The one open subscription can go from `s` to `s'`. */
  ghost predicate Leads(me: Instance, s: Shard, s': Shard) {
    exists actions :: Path(me, s, actions) && End(s, actions) == s'
  }

  lemma Stays(me: Instance, s: Shard)
    ensures Leads(me, s, s)
  {
    assert Path(me, s, []) && End(s, []) == s;
  }

  lemma {:induction false} PathThen(me: Instance, s: Shard, actions: seq<Action>, a: Action)
    requires Path(me, s, actions) && Enabled(End(s, actions), a) && Solo(End(s, actions), me, a)
    ensures Path(me, s, actions + [a]) && End(s, actions + [a]) == Do(End(s, actions), a)
    decreases |actions|
  {
    if actions == [] {
      assert Path(me, Do(s, a), []) && [a][1..] == [];
    } else {
      PathThen(me, Do(s, actions[0]), actions[1..], a);
      assert (actions + [a])[1..] == actions[1..] + [a];
    }
  }

  lemma Then(me: Instance, s: Shard, s': Shard, a: Action)
    requires Leads(me, s, s') && Enabled(s', a) && Solo(s', me, a)
    ensures Leads(me, s, Do(s', a))
  {
    var actions :| Path(me, s, actions) && End(s, actions) == s';
    PathThen(me, s, actions, a);
  }

  lemma {:induction false} PathKeeps(me: Instance, s: Shard, actions: seq<Action>)
    requires Path(me, s, actions) && SafeInv(s, me)
    ensures SafeInv(End(s, actions), me)
    decreases |actions|
  {
    if actions != [] {
      SafeStepKeeps(s, me, actions[0]);
      PathKeeps(me, Do(s, actions[0]), actions[1..]);
    }
  }

  /** The subscription can take a step that skips a record. */
  ghost predicate Failing(me: Instance, s: Shard, id: nat, at: nat) {
    && Enabled(s, ByReader(id, Fetch(Iterator(at), me.installed)))
    && Solo(s, me, ByReader(id, Fetch(Iterator(at), me.installed)))
    && Skips(s, at)
  }

  /** However the subscription goes on from here, no iterator skips a record. */
  ghost predicate Safe(me: Instance, s: Shard) {
    forall s', id, at :: Leads(me, s, s') ==> !Failing(me, s', id, at)
  }

  lemma InvariantIsSafe(me: Instance, s: Shard)
    requires SafeInv(s, me)
    ensures Safe(me, s)
  {
    forall s', id, at | Leads(me, s, s')
      ensures !Failing(me, s', id, at)
    {
      var actions :| Path(me, s, actions) && End(s, actions) == s';
      PathKeeps(me, s, actions);
      if Failing(me, s', id, at) {
        FetchSkipsNothing(s', me, id, at);
      }
    }
  }

  // ----- What is known of any state on the way -----

  /** Everything handed out is on some watermark, and a watermark that moved wrote. */
  ghost predicate Traced(s: Shard) {
    && (forall q :: q in s.handed ==> OnATrack(s, q))
    && (forall i :: 0 <= i < |s.readers| ==> WellFormed(s.readers[i].track))
    && (forall i :: 0 <= i < |s.readers| && Prefix(s.readers[i].track) > 0 ==> s.writes != {})
  }

  ghost predicate OnATrack(s: Shard, q: SequenceNumber) {
    exists i :: 0 <= i < |s.readers| && q in s.readers[i].track.deliveries
  }

  /** No reader is left, and nothing tells the next one where to start. */
  ghost predicate Quiet(s: Shard, me: Instance) {
    && Ours(s, me) && Traced(s)
    && (forall i :: 0 <= i < |s.readers| ==> !Held(s.readers[i]))
    && me.owner !in s.rewinds && s.row.checkpoint.None?
  }

  /** Watermarks only grow, and whatever they hold stays on them. */
  ghost predicate TracksGrow(s: Shard, s': Shard) {
    && |s.readers| <= |s'.readers|
    && forall i :: 0 <= i < |s.readers| ==> s.readers[i].track.deliveries <= s'.readers[i].track.deliveries
  }

  lemma OnATrackStays(s: Shard, s': Shard)
    requires TracksGrow(s, s')
    ensures forall q :: OnATrack(s, q) ==> OnATrack(s', q)
  {
    forall q | OnATrack(s, q)
      ensures OnATrack(s', q)
    {
      var i :| 0 <= i < |s.readers| && q in s.readers[i].track.deliveries;
      assert q in s'.readers[i].track.deliveries;
    }
  }

  lemma HandOutTraces(s: Shard, id: nat)
    requires Traced(s) && Enabled(s, ByReader(id, ReaderStep.HandOut))
    ensures Traced(Do(s, ByReader(id, ReaderStep.HandOut)))
  {
    var r := s.readers[id];
    var s' := Do(s, ByReader(id, ReaderStep.HandOut));
    ExtendKeepsPrefix(r.track, r.position);
    OnATrackStays(s, s');
    if !s.log[r.position].aggregated {
      assert s'.readers[id].track.deliveries[|r.track.deliveries|] == r.position;
      assert OnATrack(s', r.position);
    }
  }

  lemma SettleTraces(s: Shard, id: nat, index: nat)
    requires Traced(s) && id < |s.readers| && index < |s.readers[id].track.deliveries|
    ensures Traced(DoSettle(s, id, index))
  {
    MarkGrowsPrefix(s.readers[id].track, index);
    OnATrackStays(s, DoSettle(s, id, index));
  }

  /** The other steps touch neither watermarks nor what they hold. */
  ghost predicate SameTracks(s: Shard, s': Shard) {
    && |s.readers| <= |s'.readers| && s'.handed == s.handed && s'.writes == s.writes
    && (forall i :: 0 <= i < |s.readers| ==> s'.readers[i].track == s.readers[i].track)
    && (forall i :: |s.readers| <= i < |s'.readers| ==> s'.readers[i].track == Track([], {}))
  }

  lemma OtherStepTraces(s: Shard, a: Action)
    requires Traced(s) && Enabled(s, a) && !a.Settle? && !(a.ByReader? && a.step.HandOut?)
    ensures Traced(Do(s, a))
  {
    if a.ByReader? {
      OtherReaderStep(s, s.readers[a.id], a.step);
    }
    assert SameTracks(s, Do(s, a));
    OnATrackStays(s, Do(s, a));
  }

  lemma OtherReaderStep(s: Shard, r: Reader, step: ReaderStep)
    requires Ready(s, r, step) && !step.HandOut?
    ensures Moved(s, r, step).track == r.track
    ensures var s' := Effect(s, r, step); s'.readers == s.readers && s'.handed == s.handed && s'.writes == s.writes
  {
  }

  lemma {:induction false} PathTraces(me: Instance, s: Shard, actions: seq<Action>)
    requires Path(me, s, actions) && Traced(s)
    ensures Traced(End(s, actions))
    decreases |actions|
  {
    if actions != [] {
      match actions[0] {
        case Settle(id, index) => SettleTraces(s, id, index);
        case ByReader(id, HandOut) => HandOutTraces(s, id);
        case _ => OtherStepTraces(s, actions[0]);
      }
      PathTraces(me, Do(s, actions[0]), actions[1..]);
    }
  }

  // ----- How a subscription goes on -----

  /** The reader the subscription starts when it knows nothing, before its iterator is fetched. */
  function Next(me: Instance, lineage: Lineage): Reader {
    Reader(me.owner, lineage, if lineage == Opens then {} else {"parent"}, 0, None, false, Track([], {}),
           Fetching(false, LeaseState(None, None)))
  }

  /** The lineage the next reader may have. */
  predicate MayBe(me: Instance, s: Shard, lineage: Lineage) {
    (lineage.Continues? ==> me.parented) && (Continuing(s) ==> lineage.Continues?)
  }

  function Reopened(me: Instance, s: Shard, lineage: Lineage): Shard {
    s.(row := s.row.(owner := Some(me.owner), expires := Some(0)), readers := s.readers + [Next(me, lineage)])
  }

  lemma Reopens(me: Instance, s0: Shard, s: Shard, lineage: Lineage)
    requires Leads(me, s0, s) && Quiet(s, me) && MayBe(me, s, lineage)
    ensures Leads(me, s0, Reopened(me, s, lineage))
  {
    var sawEnd: set<ShardId> := Next(me, lineage).sawEnd;
    Then(me, s0, s, TakeLease(me.owner, 0, 0));
    var s1 := Do(s, TakeLease(me.owner, 0, 0));
    Then(me, s0, s1, Spawn(me.owner, lineage, sawEnd));
    var s2 := Do(s1, Spawn(me.owner, lineage, sawEnd));
    assert s1.rewinds - {me.owner} == s.rewinds;
    var id := |s.readers|;
    assert s2.readers[id] == Next(me, lineage).(phase := Opening(false));
    Then(me, s0, s2, ByReader(id, ReadRow(true)));
    var s3 := Do(s2, ByReader(id, ReadRow(true)));
    assert s3.readers == s.readers + [Next(me, lineage)];
  }

  /** Where the iterator of such a reader starts: at the tip, or at the horizon when it continues its
      parents. */
  function Opened(me: Instance, s: Shard, lineage: Lineage): Shard {
    var at := if lineage == Opens then |s.log| else 0;
    var rewind := if lineage == Opens then None else Some(ShardStart.Stream(Horizon));
    Reopened(me, s, lineage).(readers := s.readers + [Next(me, lineage).(position := at, rewind := rewind,
                                                                         unrecorded := true, phase := Reading)])
  }

  lemma OpensAnew(me: Instance, s0: Shard, s: Shard, lineage: Lineage)
    requires Leads(me, s0, s) && Quiet(s, me) && MayBe(me, s, lineage) && OpensAtTip(me)
    ensures Leads(me, s0, Opened(me, s, lineage))
  {
    Reopens(me, s0, s, lineage);
    var s' := Reopened(me, s, lineage);
    var at := if lineage == Opens then |s.log| else 0;
    var a := ByReader(|s.readers|, Fetch(Iterator(at), me.installed));
    assert s'.readers[|s.readers|] == Next(me, lineage);
    Then(me, s0, s', a);
    assert Do(s', a).readers == Opened(me, s, lineage).readers;
  }

  // ----- Reading on -----

  /** Only one reader moved; records may have been handed out. */
  ghost predicate ReadOn(s: Shard, s': Shard, id: nat) {
    && id < |s.readers| == |s'.readers|
    && s' == s.(readers := s'.readers, handed := s'.handed, opening := s'.opening)
    && s.handed <= s'.handed
    && s'.readers == s.readers[id := s'.readers[id]]
    && s'.readers[id].owner == s.readers[id].owner && s'.readers[id].lineage == s.readers[id].lineage
    && s'.readers[id].track.done == s.readers[id].track.done
  }

  ghost predicate HandsOut(s: Shard, s': Shard, from: nat, to: nat) {
    && (forall q :: from <= q < to && q < |s.log| && !s.log[q].aggregated ==> q in s'.handed)
    && (forall q :: q in s'.handed ==> q in s.handed || from <= q < to)
  }

  lemma {:induction false} HandsOutRest(me: Instance, s0: Shard, s: Shard, id: nat) returns (s': Shard)
    requires Leads(me, s0, s) && id < |s.readers|
    requires var r := s.readers[id]; r.phase.Handing? && !r.unrecorded && r.position <= r.phase.upto <= |s.log|
    ensures Leads(me, s0, s') && ReadOn(s, s', id)
    ensures var r, r' := s.readers[id], s'.readers[id];
            && HandsOut(s, s', r.position, r.phase.upto)
            && r'.phase == r.phase && r'.position == r.phase.upto && !r'.unrecorded
            && (r.position == r.phase.upto ==> s' == s)
            && (r.position + 1 == r.phase.upto && !s.log[r.position].aggregated ==>
                  r'.track.deliveries == r.track.deliveries + [r.position])
    decreases s.readers[id].phase.upto - s.readers[id].position
  {
    var r := s.readers[id];
    if r.position == r.phase.upto {
      s' := s;
    } else {
      var a := ByReader(id, ReaderStep.HandOut);
      Then(me, s0, s, a);
      var s1 := Do(s, a);
      assert ReadOn(s, s1, id);
      s' := HandsOutRest(me, s0, s1, id);
    }
  }

  /** One read, from the request to the last hand-out. */
  lemma ReadsBatch(me: Instance, s0: Shard, s: Shard, id: nat, upto: nat, last: bool) returns (s': Shard)
    requires Leads(me, s0, s) && id < |s.readers| && s.readers[id].phase.Reading? && !s.keeps
    requires s.readers[id].position < upto <= |s.log| && (last ==> s.closed && upto == |s.log|)
    requires s.row.owner == Some(s.readers[id].owner)
    ensures Leads(me, s0, s') && ReadOn(s, s', id)
    ensures var r, r' := s.readers[id], s'.readers[id];
            && HandsOut(s, s', r.position, upto)
            && r'.phase == (if last then Draining else Reading) && r'.position == upto
            && (r.position + 1 == upto && !s.log[r.position].aggregated ==>
                  r'.track.deliveries == r.track.deliveries + [r.position])
  {
    var s1 := StartsBatch(me, s0, s, id, upto, last);
    var s2 := HandsOutRest(me, s0, s1, id);
    Then(me, s0, s2, ByReader(id, FinishBatch));
    s' := DoReader(s2, id, FinishBatch);
    assert ReadOn(s, s', id);
  }

  /** The read, and the recording of where the reading opens, if that is still to be done. */
  lemma StartsBatch(me: Instance, s0: Shard, s: Shard, id: nat, upto: nat, last: bool) returns (s': Shard)
    requires Leads(me, s0, s) && id < |s.readers| && s.readers[id].phase.Reading? && !s.keeps
    requires s.readers[id].position < upto <= |s.log| && (last ==> s.closed && upto == |s.log|)
    requires s.row.owner == Some(s.readers[id].owner)
    ensures Leads(me, s0, s') && ReadOn(s, s', id) && s'.handed == s.handed
    ensures s'.readers[id].phase == Handing(upto, last) && !s'.readers[id].unrecorded
    ensures s'.readers[id].position == s.readers[id].position && s'.readers[id].track == s.readers[id].track
  {
    Then(me, s0, s, ByReader(id, GetRecords(upto, last)));
    s' := DoReader(s, id, GetRecords(upto, last));
    if s.readers[id].unrecorded {
      Then(me, s0, s', ByReader(id, RecordOpening(true, true)));
      s' := DoReader(s', id, RecordOpening(true, true));
    }
  }

  /** The reader's iterator has expired, and the row was read for the next one. */
  function Refetching(s: Shard, id: nat): Shard
    requires id < |s.readers|
  {
    s.(readers := s.readers[id := s.readers[id].(phase := Fetching(true, StateOf(s.row)))])
  }

  lemma LosesItsIterator(me: Instance, s0: Shard, s: Shard, id: nat)
    requires Leads(me, s0, s) && id < |s.readers| && s.readers[id].phase.Reading?
    requires s.row.checkpoint != Some(ShardEnd)
    ensures Leads(me, s0, Refetching(s, id))
  {
    var a := ByReader(id, ExpireIterator);
    Then(me, s0, s, a);
    var s1 := Do(s, a);
    Then(me, s0, s1, ByReader(id, ReadRow(true)));
    assert Do(s1, ByReader(id, ReadRow(true))).readers == Refetching(s, id).readers;
  }

  /** A write that an acknowledgement started lands, and the reader's next iterator starts after it. */
  lemma GoesAfter(me: Instance, s0: Shard, s: Shard, id: nat, k: SequenceNumber) returns (s1: Shard)
    requires Leads(me, s0, s) && id < |s.readers| && s.readers[id].phase.Reading?
    requires s.row.owner == Some(me.owner) && (me.owner, k) in s.writes && k < |s.log|
    ensures s1 == Refetching(s.(row := s.row.(checkpoint := Some(Sequence(k)))), id) && Leads(me, s0, s1)
    ensures Enabled(s1, ByReader(id, Fetch(Iterator(k + 1), me.installed)))
    ensures Solo(s1, me, ByReader(id, Fetch(Iterator(k + 1), me.installed)))
  {
    var a := LandWrite(me.owner, k);
    Then(me, s0, s, a);
    var written := s.(row := s.row.(checkpoint := Some(Sequence(k))));
    assert Do(s, a) == written;
    LosesItsIterator(me, s0, written, id);
    s1 := Refetching(written, id);
  }

  /** The write takes the reader back to after it, and it reads on from there. */
  lemma ReadsAgainAfter(me: Instance, s0: Shard, s: Shard, id: nat, k: SequenceNumber, upto: nat) returns (s': Shard)
    requires Leads(me, s0, s) && id < |s.readers| && s.readers[id].phase.Reading? && !s.keeps
    requires s.row.owner == Some(me.owner) && s.readers[id].owner == me.owner
    requires (me.owner, k) in s.writes && k + 1 < upto <= |s.log|
    ensures Leads(me, s0, s') && id < |s'.readers| && s'.readers[id].phase.Reading? && s'.readers[id].owner == me.owner
    ensures s'.readers[id].position == upto
    ensures s'.row.owner == Some(me.owner) && s'.writes == s.writes && s'.log == s.log && s'.settled == s.settled
    ensures forall q :: k < q < upto && !s.log[q].aggregated ==> q in s'.handed
  {
    var s1 := GoesAfter(me, s0, s, id, k);
    var a := ByReader(id, Fetch(Iterator(k + 1), me.installed));
    Then(me, s0, s1, a);
    s' := ReadsBatch(me, s0, Do(s1, a), id, upto, false);
  }

  // ----- Skipping a record -----

  /** Something handed out has not settled: the next reader opens at the tip. */
  lemma TipSkips(me: Instance, s0: Shard, s: Shard, q: SequenceNumber)
    requires Leads(me, s0, s) && Quiet(s, me) && OpensAtTip(me) && !Continuing(s)
    requires q in s.handed && q !in s.settled
    ensures !Safe(me, s0)
  {
    Reopens(me, s0, s, Opens);
    var s' := Reopened(me, s, Opens);
    assert s'.readers[|s.readers|] == Next(me, Opens);
    assert Failing(me, s', |s.readers|, |s.log|);
  }

  /** A record before the first one handed out has not settled, and the shard has parents. By the time
      the next reader starts, the parents' end is known, and it opens at the horizon; then an
      acknowledgement of an earlier reader reaches the store and carries its next iterator past what
      it handed out. */
  lemma HorizonSkips(me: Instance, s0: Shard, s: Shard, k: SequenceNumber, q: SequenceNumber)
    requires Leads(me, s0, s) && Quiet(s, me) && (me.owner, k) in s.writes
    requires OpensAtTip(me) && me.parented
    requires q <= k < |s.log| && !s.log[q].aggregated && q !in s.settled
    ensures !Safe(me, s0)
  {
    OpensAnew(me, s0, s, Continues);
    var id := |s.readers|;
    var s1 := Opened(me, s, Continues);
    var s2 := ReadsBatch(me, s0, s1, id, q + 1, false);
    var s3 := GoesAfter(me, s0, s2, id, k);
    assert Failing(me, s3, id, k + 1);
  }

  /** The shard grows: one record before the next reader opens at the tip, which it does not read,
      and one after, which it does, and which settles. */
  lemma GrowsPastTheReader(me: Instance, s0: Shard, s: Shard) returns (s': Shard)
    requires Leads(me, s0, s) && Quiet(s, me) && OpensAtTip(me) && !Continuing(s) && !s.closed
    ensures Leads(me, s0, s') && |s'.readers| == |s.readers| + 1
    ensures s'.readers[|s.readers|].phase.Reading? && s'.readers[|s.readers|].owner == me.owner
    ensures s'.row.owner == Some(me.owner) && !s'.keeps && s'.log == s.log + [Record(false), Record(false)]
    ensures |s.log| !in s'.settled && s.writes <= s'.writes && (me.owner, |s.log| + 1) in s'.writes
  {
    var n, id := |s.log|, |s.readers|;
    var s3 := GrowsAroundTheTip(me, s0, s);
    var s4 := ReadsBatch(me, s0, s3, id, n + 2, false);
    s' := SettlesFirst(me, s0, s4, id);
  }

  lemma GrowsAroundTheTip(me: Instance, s0: Shard, s: Shard) returns (s': Shard)
    requires Leads(me, s0, s) && Quiet(s, me) && OpensAtTip(me) && !Continuing(s) && !s.closed
    ensures Leads(me, s0, s')
    ensures var s1 := s.(log := s.log + [Record(false)]);
            s' == Opened(me, s1, Opens).(log := s.log + [Record(false), Record(false)])
  {
    var a := Append(Record(false));
    Then(me, s0, s, a);
    var s1 := s.(log := s.log + [Record(false)]);
    assert s1 == Do(s, a);
    StepOurs(s, me, a);
    OtherStepTraces(s, a);
    OpensAnew(me, s0, s1, Opens);
    var s2 := Opened(me, s1, Opens);
    Then(me, s0, s2, a);
    s' := s2.(log := s2.log + [Record(false)]);
    assert s' == Do(s2, a);
    assert s'.log == s.log + [Record(false), Record(false)];
  }

  /** Then the earlier acknowledgement's write lands and takes the reader back, it hands out the
      record it had not read, and the later write takes it past. */
  lemma GrowthSkips(me: Instance, s0: Shard, s: Shard, k: SequenceNumber)
    requires Leads(me, s0, s) && Quiet(s, me) && (me.owner, k) in s.writes
    requires OpensAtTip(me) && !Continuing(s) && k < |s.log| && !s.closed
    ensures !Safe(me, s0)
  {
    var n, id := |s.log|, |s.readers|;
    var s1 := GrowsPastTheReader(me, s0, s);
    var s3 := ReadsAgainAfter(me, s0, s1, id, k, n + 1);
    var s4 := GoesAfter(me, s0, s3, id, n + 1);
    assert Failing(me, s4, id, n + 2);
  }

  /** The first delivery of a watermark settles. */
  lemma SettlesFirst(me: Instance, s0: Shard, s: Shard, id: nat) returns (s': Shard)
    requires Leads(me, s0, s) && id < |s.readers| && s.readers[id].track.deliveries != []
    requires WellFormed(s.readers[id].track) && Prefix(s.readers[id].track) == 0
    ensures Leads(me, s0, s')
    ensures s' == s.(readers := s'.readers, settled := s.settled + {s.readers[id].track.deliveries[0]},
                     writes := s'.writes)
    ensures s.writes <= s'.writes
    ensures exists k :: (s.readers[id].owner, k) in s'.writes && k in s.readers[id].track.deliveries
    ensures |s.readers[id].track.deliveries| == 1 ==>
              (s.readers[id].owner, s.readers[id].track.deliveries[0]) in s'.writes
    ensures s'.readers == s.readers[id := s.readers[id].(track := Mark(s.readers[id].track, 0))]
  {
    var a := Action.Settle(id, 0);
    Then(me, s0, s, a);
    s' := Do(s, a);
    var t := s.readers[id].track;
    MarkMovesPrefix(t, 0);
    assert Advanced(t, Mark(t, 0)).Some?;
    assert (s.readers[id].owner, Mark(t, 0).deliveries[Prefix(Mark(t, 0)) - 1]) in s'.writes;
  }

  /** Once anything was handed out, an acknowledgement has a write under way, or can start one. */
  lemma WritesSomething(me: Instance, s0: Shard, s: Shard) returns (s': Shard, k: SequenceNumber)
    requires Leads(me, s0, s) && Quiet(s, me) && s.handed != {}
    ensures Leads(me, s0, s') && Quiet(s', me) && (me.owner, k) in s'.writes && k in s.handed
    ensures s'.log == s.log && s'.closed == s.closed && s'.handed == s.handed && Continuing(s') == Continuing(s)
  {
    if s.writes != {} {
      var w :| w in s.writes;
      s', k := s, w.1;
    } else {
      var q :| q in s.handed;
      assert OnATrack(s, q);
      var i :| 0 <= i < |s.readers| && q in s.readers[i].track.deliveries;
      var a := Action.Settle(i, 0);
      Then(me, s0, s, a);
      s' := DoSettle(s, i, 0);
      QuietSettles(s, me, i);
      k := SettlingWrites(s, i);
      assert ReaderOurs(s, me, s.readers[i]);
    }
  }

  lemma QuietSettles(s: Shard, me: Instance, i: nat)
    requires Quiet(s, me) && i < |s.readers| && s.readers[i].track.deliveries != []
    ensures var s' := DoSettle(s, i, 0);
            && Quiet(s', me) && Continuing(s') == Continuing(s)
            && s'.log == s.log && s'.closed == s.closed && s'.handed == s.handed
  {
    SettleOurs(s, me, i, 0);
    SettleTraces(s, i, 0);
    SettledReader(s, DoSettle(s, i, 0), i);
    StillQuiet(s, DoSettle(s, i, 0), me);
  }

  lemma SettlingWrites(s: Shard, i: nat) returns (k: SequenceNumber)
    requires Traced(s) && s.writes == {} && i < |s.readers| && s.readers[i].track.deliveries != []
    ensures (s.readers[i].owner, k) in DoSettle(s, i, 0).writes && k in s.readers[i].track.deliveries
  {
    var t := s.readers[i].track;
    MarkMovesPrefix(t, 0);
    k := t.deliveries[Prefix(Mark(t, 0)) - 1];
  }

  lemma SettledReader(s: Shard, s': Shard, i: nat)
    requires i < |s.readers| && s.readers[i].track.deliveries != []
    requires s' == DoSettle(s, i, 0)
    ensures s'.readers == s.readers[i := s.readers[i].(track := Mark(s.readers[i].track, 0))]
    ensures s' == s.(readers := s'.readers, settled := s'.settled, writes := s'.writes)
  {
  }

  lemma StillQuiet(s: Shard, s': Shard, me: Instance)
    requires Quiet(s, me) && Ours(s', me) && Traced(s') && s'.row == s.row && s'.rewinds == s.rewinds
    requires |s'.readers| == |s.readers|
    requires forall i :: 0 <= i < |s.readers| ==>
               s'.readers[i].phase == s.readers[i].phase && s'.readers[i].lineage == s.readers[i].lineage
    ensures Quiet(s', me) && Continuing(s') == Continuing(s)
  {
    ContinuingStays(s, s');
  }

  /** A reader that lost its cursor stops, and the coordinator has nothing to hand on. */
  lemma LossEnds(me: Instance, s: Shard, id: nat, step: ReaderStep) returns (s': Shard)
    requires Ours(s, me) && Traced(s) && Enabled(s, ByReader(id, step)) && Loses(step) && s.row.checkpoint.None?
    ensures Leads(me, Do(s, ByReader(id, step)), s') && Quiet(s', me) && Continuing(s') == Continuing(s)
    ensures s'.log == s.log && s'.closed == s.closed && s'.handed == s.handed && s'.settled == s.settled
  {
    var s0 := Do(s, ByReader(id, step));
    var s1 := LostReaderStops(me, s, id, step);
    var a := Forget(id);
    Then(me, s0, s1, a);
    StepOurs(s1, me, a);
    OtherStepTraces(s1, a);
    s' := DoForget(s1, id);
    LeftIsQuiet(me, s, s1, s', id);
  }

  lemma LeftIsQuiet(me: Instance, s: Shard, s1: Shard, s': Shard, id: nat)
    requires Ours(s, me) && LeftBy(s, s1, id) && Held(s.readers[id]) && s.row.checkpoint.None?
    requires s1.readers[id].phase == Stopped(None) && s' == DoForget(s1, id) && Ours(s', me) && Traced(s')
    ensures Quiet(s', me) && Continuing(s') == Continuing(s)
    ensures s'.log == s.log && s'.closed == s.closed && s'.handed == s.handed && s'.settled == s.settled
  {
    ContinuingStays(s, s');
  }

  lemma LostReaderStops(me: Instance, s: Shard, id: nat, step: ReaderStep) returns (s': Shard)
    requires Ours(s, me) && Traced(s) && Enabled(s, ByReader(id, step)) && Loses(step)
    ensures Leads(me, Do(s, ByReader(id, step)), s') && Ours(s', me) && Traced(s')
    ensures LeftBy(s, s', id) && s'.readers[id].phase == Stopped(None)
  {
    var s0 := DoReader(s, id, step);
    Stays(me, s0);
    WaitingStepOurs(s, me, id, step);
    OtherStepTraces(s, ByReader(id, step));
    LossLeaves(s, id, step);
    s' := s0;
    if s0.readers[id].phase.Releasing? {
      s' := Releases(me, s0, id);
    }
  }

  lemma LossLeaves(s: Shard, id: nat, step: ReaderStep)
    requires id < |s.readers| && Ready(s, s.readers[id], step) && Loses(step)
    ensures LeftBy(s, DoReader(s, id, step), id)
    ensures var phase := DoReader(s, id, step).readers[id].phase; phase == Releasing(None) || phase == Stopped(None)
  {
  }

  lemma Releases(me: Instance, s: Shard, id: nat) returns (s': Shard)
    requires Ours(s, me) && Traced(s) && id < |s.readers| && s.readers[id].phase == Releasing(None)
    ensures Leads(me, s, s') && Ours(s', me) && Traced(s')
    ensures LeftBy(s, s', id) && s'.readers[id].phase == Stopped(None)
  {
    Stays(me, s);
    var a := ByReader(id, ReleaseLease(true));
    Then(me, s, s, a);
    WaitingStepOurs(s, me, id, ReleaseLease(true));
    OtherStepTraces(s, a);
    s' := DoReader(s, id, ReleaseLease(true));
  }

  /** Only the reader's phase has changed, and perhaps the row's holder. */
  ghost predicate LeftBy(s: Shard, s': Shard, id: nat) {
    && id < |s.readers| == |s'.readers|
    && s' == s.(readers := s'.readers, row := s'.row)
    && s'.row.checkpoint == s.row.checkpoint
    && (forall i :: 0 <= i < |s.readers| && i != id ==> s'.readers[i] == s.readers[i])
    && s'.readers[id].lineage == s.readers[id].lineage
  }

  // ----- Exactly when -----

  ghost predicate Reachable(me: Instance, s: Shard) {
    exists first :: Fresh(first) && !first.keeps && Leads(me, first, s)
  }

  lemma ReachableHolds(me: Instance, s: Shard)
    requires Reachable(me, s)
    ensures SafeInv(s, me) && Traced(s)
  {
    var first :| Fresh(first) && !first.keeps && Leads(me, first, s);
    var actions :| Path(me, first, actions) && End(first, actions) == s;
    FreshIsSafe(first, me);
    PathKeeps(me, first, actions);
    PathTraces(me, first, actions);
  }

  lemma ContinuingHasParents(s: Shard, me: Instance)
    requires Ours(s, me) && Continuing(s)
    ensures me.parented
  {
    var i :| 0 <= i < |s.readers| && s.readers[i].lineage.Continues?;
    assert ReaderOurs(s, me, s.readers[i]);
  }

  /** The three ways a lost cursor skips a record. */
  lemma HarmfulLossSkips(me: Instance, s: Shard, id: nat, step: ReaderStep)
    requires Ours(s, me) && Traced(s) && Enabled(s, ByReader(id, step)) && Loses(step) && !Harmless(s, me)
    ensures !Safe(me, Do(s, ByReader(id, step)))
  {
    var s0 := Do(s, ByReader(id, step));
    var s1 := LossEnds(me, s, id, step);
    if !Continuing(s) && !(s.handed <= s.settled) {
      var q :| q in s.handed && q !in s.settled;
      TipSkips(me, s0, s1, q);
    } else {
      var s2, k := WritesSomething(me, s0, s1);
      if !Continuing(s) && !s.closed {
        GrowthSkips(me, s0, s2, k);
      } else {
        if Continuing(s) {
          ContinuingHasParents(s, me);
        }
        var q: nat :| q < |s.log| && !s.log[q].aggregated && q !in s.settled && forall h :: h in s.handed ==> q < h;
        assert s2.settled <= s.handed;
        HorizonSkips(me, s0, s2, k, q);
      }
    }
  }

  /** Whatever loses the cursor, the end of the subscription or of its process included: where that
      does no harm, nothing is ever skipped. */
  lemma HarmlessLossIsSafe(me: Instance, s: Shard, a: Action)
    requires Reachable(me, s) && Enabled(s, a) && Forgets(me, a) && Harmless(s, me)
    requires a.ByReader? && a.step.Fetch? ==> a.step.installed == me.installed
    ensures Safe(me, Do(s, a))
  {
    HarmlessLossStaysSafe(me, s, a);
    InvariantIsSafe(me, Do(s, a));
  }

  lemma HarmlessLossStaysSafe(me: Instance, s: Shard, a: Action)
    requires Reachable(me, s) && Enabled(s, a) && Forgets(me, a) && Harmless(s, me)
    requires a.ByReader? && a.step.Fetch? ==> a.step.installed == me.installed
    ensures SafeInv(Do(s, a), me)
  {
    ReachableHolds(me, s);
    HarmlessIsAllowed(me, s, a);
    SafeStepKeeps(s, me, a);
  }

  lemma HarmlessIsAllowed(me: Instance, s: Shard, a: Action)
    requires Forgets(me, a) && Harmless(s, me)
    requires a.ByReader? && a.step.Fetch? ==> a.step.installed == me.installed
    ensures a.ByReader? && a.step.Fetch? ==> !a.step.answer.Iterator?
    ensures Solo(s, me, a)
  {
  }

  /** In every reachable state of every subscription, a reader that stops with nothing to hand on does
      no harm if and only if the state is one `Harmless` names. */
  lemma LossIsHarmlessExactlyWhen(me: Instance, s: Shard, id: nat, step: ReaderStep)
    requires Reachable(me, s) && Enabled(s, ByReader(id, step)) && Loses(step)
    requires step.Fetch? ==> step.installed == me.installed
    ensures Safe(me, Do(s, ByReader(id, step))) <==> Harmless(s, me)
  {
    if Harmless(s, me) {
      HarmlessLossIsSafe(me, s, ByReader(id, step));
    } else {
      ReachableHolds(me, s);
      HarmfulLossSkips(me, s, id, step);
    }
  }

  // ----- Harmful states are reached -----

  function Unread(log: seq<Record>): Shard {
    Shard(false, log, false, EMPTY, [], map[], {}, {}, {}, None)
  }

  lemma UnreadIsQuiet(me: Instance, log: seq<Record>)
    ensures Fresh(Unread(log)) && Quiet(Unread(log), me) && !Continuing(Unread(log))
  {
  }

  /** A reader opens at the tip and hands a record out; before it settles, the service says that the
      stream is gone, or the iterator expires and the service answers no other. */
  lemma HarmfulLossIsReached(me: Instance) returns (s: Shard, expired: Shard)
    requires OpensAtTip(me)
    ensures Reachable(me, s) && Enabled(s, ByReader(0, LoseStream))
    ensures !Harmless(s, me) && !Safe(me, Do(s, ByReader(0, LoseStream)))
    ensures Reachable(me, expired) && Enabled(expired, ByReader(0, Fetch(NoIterator, me.installed)))
    ensures !Harmless(expired, me) && !Safe(me, Do(expired, ByReader(0, Fetch(NoIterator, me.installed))))
  {
    s := ReadsOne(me);
    assert 0 in s.handed && 0 !in s.settled;
    LossIsHarmlessExactlyWhen(me, s, 0, LoseStream);
    expired := Refetching(s, 0);
    ContinuingStays(s, expired);
    LossIsHarmlessExactlyWhen(me, expired, 0, Fetch(NoIterator, me.installed));
  }

  lemma ReadsOne(me: Instance) returns (s: Shard)
    requires OpensAtTip(me)
    ensures Reachable(me, s) && |s.readers| == 1 && s.readers[0].phase.Reading?
    ensures 0 in s.handed && s.settled == {} && !s.closed && s.row.checkpoint.None? && !Continuing(s)
    ensures Reachable(me, Refetching(s, 0))
  {
    var s0 := Unread([]);
    var s1 := OpensUnread(me, []);
    Then(me, s0, s1, Append(Record(false)));
    var s2 := s1.(log := [Record(false)]);
    assert s2 == Do(s1, Append(Record(false)));
    s := ReadsBatch(me, s0, s2, 0, 1, false);
    LosesItsIterator(me, s0, s, 0);
  }

  /** A reader opens at the tip of a shard nobody has read. */
  lemma OpensUnread(me: Instance, log: seq<Record>) returns (s: Shard)
    requires OpensAtTip(me)
    ensures Fresh(Unread(log)) && Leads(me, Unread(log), s)
    ensures |s.readers| == 1 && s == Unread(log).(row := s.row, readers := s.readers)
    ensures s.row.owner == Some(me.owner) && s.row.checkpoint.None?
    ensures var r := s.readers[0];
            r.owner == me.owner && r.lineage == Opens && r.phase == Reading && r.position == |log|
            && r.track == Track([], {})
  {
    var s0 := Unread(log);
    UnreadIsQuiet(me, log);
    Stays(me, s0);
    OpensAnew(me, s0, s0, Opens);
    s := Opened(me, s0, Opens);
  }

  /** A reader opens at the tip of a shard with parents, which is then closed, everything it hands out
      settles, and its end mark is not written. */
  lemma HarmfulEndIsReached(me: Instance) returns (s: Shard)
    requires OpensAtTip(me) && me.parented
    ensures Reachable(me, s) && Enabled(s, ByReader(0, MarkEnd(false)))
    ensures !Harmless(s, me) && !Safe(me, Do(s, ByReader(0, MarkEnd(false))))
  {
    s := DrainsOne(me);
    assert !s.log[0].aggregated && 0 !in s.settled;
    LossIsHarmlessExactlyWhen(me, s, 0, MarkEnd(false));
  }

  lemma DrainsOne(me: Instance) returns (s: Shard)
    requires OpensAtTip(me)
    ensures Reachable(me, s) && |s.readers| == 1 && s.readers[0].phase.Marking?
    ensures s.log == [Record(false), Record(false)] && s.handed == {1} && s.settled == {1} && s.row.checkpoint.None?
  {
    var s0 := Unread([Record(false)]);
    var s1 := OpensUnread(me, [Record(false)]);
    Then(me, s0, s1, Append(Record(false)));
    var s2 := s1.(log := [Record(false), Record(false)]);
    assert s2 == Do(s1, Append(Record(false)));
    Then(me, s0, s2, Close);
    var s3 := s2.(closed := true);
    var s4 := ReadsBatch(me, s0, s3, 0, 2, true);
    var s5 := SettlesFirst(me, s0, s4, 0);
    PrefixIsUnique(s5.readers[0].track, 1);
    Then(me, s0, s5, ByReader(0, SeeDrained));
    s := DoReader(s5, 0, SeeDrained);
    assert s.handed == {1} by { assert 1 in s4.handed && forall q :: q in s4.handed ==> q == 1; }
  }
}
