/** Where losing a cursor does no harm for good: everything handed out lies at or after one place, the
    records from there on are accounted for, and every fresh cursor is that place or one reached from
    it, or the tip of a closed shard on which nothing is left unsettled. */
module Anchor {
  import opened Wrappers
  import opened Cursor
  import opened Tracking
  import opened Lease
  import opened ShardProtocol
  import opened ShardSafety
  import opened HandOff

  // ----- What any state on the way has -----

  ghost predicate TrackOurs(s: Shard, t: Track<SequenceNumber>) {
    WellFormed(t) && forall j :: 0 <= j < |t.deliveries| ==> t.deliveries[j] in s.handed
  }

  ghost predicate ReaderOurs(s: Shard, me: Instance, r: Reader) {
    && r.owner == me.owner && TrackOurs(s, r.track)
    && (r.lineage.Continues? ==> me.parented)
    && (Held(r) && r.lineage.Opens? ==> !Continuing(s))
  }

  /** What the instance's steps keep, whatever cursors get lost. */
  ghost predicate Ours(s: Shard, me: Instance) {
    && !s.keeps && s.row.openedAt.None?
    && (s.row.owner.Some? ==> s.row.owner.value == me.owner)
    && (forall i :: 0 <= i < |s.readers| ==> ReaderOurs(s, me, s.readers[i]))
    && (forall i, j :: 0 <= i < j < |s.readers| ==> !Held(s.readers[i]) || !Held(s.readers[j]))
    && (me.owner in s.rewinds ==> forall i :: 0 <= i < |s.readers| ==> !Held(s.readers[i]))
    && s.settled <= s.handed
    && (forall q :: q in s.handed ==> q < |s.log| && !s.log[q].aggregated)
    && (forall w :: w in s.writes ==> w.0 == me.owner && w.1 in s.handed)
  }

  lemma FreshIsOurs(s: Shard, me: Instance)
    requires Fresh(s) && !s.keeps
    ensures Ours(s, me)
  {
  }

  /** No reader's owner, lineage or watermark changes, and none is taken up again. */
  ghost predicate SameReaders(s: Shard, s': Shard) {
    && |s'.readers| == |s.readers|
    && forall i :: 0 <= i < |s.readers| ==>
         && s'.readers[i].owner == s.readers[i].owner && s'.readers[i].lineage == s.readers[i].lineage
         && s'.readers[i].track == s.readers[i].track && (Held(s'.readers[i]) ==> Held(s.readers[i]))
  }

  lemma SameReadersOurs(s: Shard, s': Shard, me: Instance)
    requires Ours(s, me) && SameReaders(s, s') && s.handed <= s'.handed
    ensures forall i :: 0 <= i < |s'.readers| ==> ReaderOurs(s', me, s'.readers[i])
    ensures Continuing(s') == Continuing(s)
  {
    assert Continuing(s') == Continuing(s) by {
      if Continuing(s) {
        var i :| 0 <= i < |s.readers| && s.readers[i].lineage.Continues?;
        assert s'.readers[i].lineage.Continues?;
      }
    }
    forall i | 0 <= i < |s'.readers|
      ensures ReaderOurs(s', me, s'.readers[i])
    {
      assert ReaderOurs(s, me, s.readers[i]);
    }
  }

  lemma WaitingStepOurs(s: Shard, me: Instance, id: nat, step: ReaderStep)
    requires Ours(s, me) && Enabled(s, ByReader(id, step)) && !step.HandOut?
    ensures Ours(Do(s, ByReader(id, step)), me)
  {
    var s' := DoReader(s, id, step);
    WaitingStep(s, s.readers[id], step, me);
    SameReadersOurs(s, s', me);
  }

  lemma WaitingStep(s: Shard, r: Reader, step: ReaderStep, me: Instance)
    requires Ready(s, r, step) && !step.HandOut? && r.owner == me.owner && !s.keeps
    ensures var r' := Moved(s, r, step);
            && r'.owner == r.owner && r'.lineage == r.lineage && r'.track == r.track && Held(r') == Held(r)
    ensures var s' := Effect(s, r, step);
            && s' == s.(row := s'.row, opening := s'.opening)
            && s'.row.openedAt == s.row.openedAt && (s'.row.owner.Some? ==> s'.row.owner == s.row.owner)
  {
  }

  lemma HandOutOurs(s: Shard, me: Instance, id: nat)
    requires Ours(s, me) && Enabled(s, ByReader(id, ReaderStep.HandOut))
    ensures Ours(Do(s, ByReader(id, ReaderStep.HandOut)), me)
  {
    var r := s.readers[id];
    var r' := Moved(s, r, ReaderStep.HandOut);
    var s' := DoReader(s, id, ReaderStep.HandOut);
    assert ReaderOurs(s, me, r);
    ExtendKeepsPrefix(r.track, r.position);
    var s1 := s.(handed := s'.handed);
    SameReadersOurs(s, s1, me);
    assert s' == Put(s1, id, r');
    PutOurs(s1, me, id, r');
  }

  lemma PutOurs(s: Shard, me: Instance, id: nat, r: Reader)
    requires Ours(s, me) && id < |s.readers| && TrackOurs(s, r.track)
    requires r.owner == s.readers[id].owner && r.lineage == s.readers[id].lineage
    requires Held(r) ==> Held(s.readers[id])
    ensures Ours(Put(s, id, r), me)
  {
    var s' := Put(s, id, r);
    assert Continuing(s') == Continuing(s) by {
      if Continuing(s) {
        var i :| 0 <= i < |s.readers| && s.readers[i].lineage.Continues?;
        assert s'.readers[i].lineage.Continues?;
      }
    }
    forall i | 0 <= i < |s'.readers|
      ensures ReaderOurs(s', me, s'.readers[i])
    {
      assert ReaderOurs(s, me, s.readers[i]);
    }
  }

  lemma SettleOurs(s: Shard, me: Instance, id: nat, index: nat)
    requires Ours(s, me) && id < |s.readers| && index < |s.readers[id].track.deliveries|
    ensures Ours(DoSettle(s, id, index), me)
  {
    var r := s.readers[id];
    assert ReaderOurs(s, me, r);
    MarkGrowsPrefix(r.track, index);
    PutOurs(s, me, id, r.(track := Mark(r.track, index)));
    var s1 := Put(s, id, r.(track := Mark(r.track, index)));
    SameReadersOurs(s1, DoSettle(s, id, index), me);
  }

  lemma SpawnOurs(s: Shard, me: Instance, lineage: Lineage, sawEnd: set<ShardId>)
    requires Ours(s, me) && Enabled(s, Spawn(me.owner, lineage, sawEnd))
    requires (lineage.Continues? ==> me.parented) && (Continuing(s) ==> lineage.Continues?)
    ensures Ours(Do(s, Spawn(me.owner, lineage, sawEnd)), me)
  {
    var s' := Do(s, Spawn(me.owner, lineage, sawEnd));
    forall i | 0 <= i < |s.readers|
      ensures ReaderOurs(s', me, s'.readers[i]) && !Held(s'.readers[i])
    {
      assert ReaderOurs(s, me, s.readers[i]);
    }
    assert forall i :: 0 <= i < |s.readers| ==> s'.readers[i] == s.readers[i];
  }

  lemma OtherStepOurs(s: Shard, me: Instance, a: Action)
    requires Ours(s, me) && Enabled(s, a) && Solo(s, me, a)
    requires !a.ByReader? && !a.Settle? && !a.Spawn?
    ensures Ours(Do(s, a), me)
  {
    if a.Forget? || a.Crash? {
      LeavingOurs(s, me, a);
    } else {
      SameReadersOurs(s, Do(s, a), me);
    }
  }

  lemma LeavingOurs(s: Shard, me: Instance, a: Action)
    requires Ours(s, me) && Enabled(s, a) && Solo(s, me, a) && (a.Forget? || a.Crash?)
    ensures Ours(Do(s, a), me)
  {
    var s' := Do(s, a);
    assert forall i :: 0 <= i < |s.readers| ==> ReaderOurs(s, me, s.readers[i]);
    assert forall i :: 0 <= i < |s.readers| ==> !Held(s'.readers[i]);
    SameReadersOurs(s, s', me);
  }

  lemma StepOurs(s: Shard, me: Instance, a: Action)
    requires Ours(s, me) && Enabled(s, a) && Solo(s, me, a)
    ensures Ours(Do(s, a), me)
  {
    match a {
      case ByReader(id, step) =>
        if step.HandOut? {
          HandOutOurs(s, me, id);
        } else {
          WaitingStepOurs(s, me, id, step);
        }
      case Settle(id, index) => SettleOurs(s, me, id, index);
      case Spawn(_, lineage, sawEnd) => SpawnOurs(s, me, lineage, sawEnd);
      case _ => OtherStepOurs(s, me, a);
    }
  }

  // ----- Anchored states -----

  /** A cursor at the anchor, or at a place everything before which has settled since. */
  ghost predicate CursorOk(s: Shard, me: Instance, start: ShardStart)
    requires s.opening.Some?
  {
    && Fixed(start)
    && (Point(start, me.stamp) == s.opening.value
        || (s.opening.value <= Point(start, me.stamp) <= |s.log|
            && SettledThrough(s, s.opening.value, Point(start, me.stamp))))
  }

  /** The next reader may open at the tip. */
  predicate TipNext(s: Shard, me: Instance) {
    OpensAtTip(me) && !Continuing(s)
  }

  /** Opened at the tip of a closed shard: nothing to read. */
  predicate AtEnd(s: Shard, r: Reader) {
    s.closed && r.position == |s.log|
  }

  ghost predicate Quiescent(s: Shard) {
    s.closed && s.handed <= s.settled
  }

  /** Whatever a later reader's lineage, it opens at a cursor that is good, or at the tip. */
  ghost predicate FreshOk(s: Shard, me: Instance)
    requires s.opening.Some?
  {
    && (OpensAtTip(me) || CursorOk(s, me, FreshCursor(me, Opens)))
    && (me.parented ==> CursorOk(s, me, FreshCursor(me, Continues)))
  }

  ghost predicate PlaceAnchored(s: Shard, me: Instance, r: Reader)
    requires s.opening.Some?
  {
    && (Active(r) ==>
          r.position <= |s.log|
          && (r.rewind.None? ==> AtEnd(s, r) && OpensAtTip(me))
          && ((AtEnd(s, r) && OpensAtTip(me))
              || (s.opening.value <= r.position
                  && Accounted(s, r.track, |r.track.deliveries|, s.opening.value, r.position))))
    && (r.phase.Handing? ==> r.position <= r.phase.upto <= |s.log|)
  }

  ghost predicate SeenAnchored(s: Shard, me: Instance, r: Reader) {
    r.phase.Fetching? ==>
      && r.phase.seen.checkpoint != Some(ShardEnd) && r.phase.seen.openedAt.None?
      && (r.phase.seen.checkpoint.Some? ==> s.row.checkpoint.Some?)
      && (SequenceOf(r.phase.seen.checkpoint).Some? ==> Sound(s, SequenceOf(r.phase.seen.checkpoint).value))
      && (r.phase.seen.checkpoint.None? && r.rewind.None? && FreshCursor(me, r.lineage) == Stream(Latest) ==>
            Quiescent(s))
  }

  /** While the next reader may open at the tip and no checkpoint is stored, no reader reads. */
  ghost predicate TipAnchored(s: Shard, me: Instance, r: Reader) {
    TipNext(s, me) && s.row.checkpoint.None? ==> Kept(r).None? && (Active(r) ==> AtEnd(s, r))
  }

  ghost predicate ReaderAnchored(s: Shard, me: Instance, r: Reader)
    requires s.opening.Some?
  {
    && (Kept(r).Some? ==> CursorOk(s, me, Kept(r).value))
    && PlaceAnchored(s, me, r) && SeenAnchored(s, me, r) && TipAnchored(s, me, r)
  }

  /** `opening` is the anchor here. */
  ghost predicate Anchored(s: Shard, me: Instance) {
    && s.opening.Some? && HandedOk(s) && FreshOk(s, me)
    && (SequenceOf(s.row.checkpoint).Some? ==> Sound(s, SequenceOf(s.row.checkpoint).value))
    && (forall w :: w in s.writes ==> Sound(s, w.1))
    && (forall i :: 0 <= i < |s.readers| ==> TrackOk(s, s.readers[i].track))
    && (forall i :: 0 <= i < |s.readers| && Held(s.readers[i]) ==> ReaderAnchored(s, me, s.readers[i]))
    && (me.owner in s.rewinds ==> CursorOk(s, me, s.rewinds[me.owner]))
    && (TipNext(s, me) && s.row.checkpoint.None? ==> Quiescent(s) && me.owner !in s.rewinds)
  }

  // ----- What survives a step -----

  lemma CursorSurvives(s: Shard, s': Shard, me: Instance, start: ShardStart)
    requires s.opening.Some? && Grows(s, s') && CursorOk(s, me, start)
    ensures CursorOk(s', me, start)
  {
  }

  lemma ReaderAnchoredSurvives(s: Shard, s': Shard, me: Instance, r: Reader)
    requires s.opening.Some? && Grows(s, s') && HandedOk(s) && TrackOk(s, r.track) && ReaderAnchored(s, me, r)
    requires SeenAnchored(s, me, r) ==> SeenAnchored(s', me, r)
    requires TipAnchored(s, me, r) ==> TipAnchored(s', me, r)
    ensures ReaderAnchored(s', me, r)
  {
    if Active(r) && !(AtEnd(s, r) && OpensAtTip(me)) {
      AccountedHolds(s, s', r.track, r.position);
    }
    if Kept(r).Some? {
      CursorSurvives(s, s', me, Kept(r).value);
    }
  }

  lemma AccountedHolds(s: Shard, s': Shard, t: Track<SequenceNumber>, to: nat)
    requires s.opening.Some? && Grows(s, s') && to <= |s.log|
    requires Accounted(s, t, |t.deliveries|, s.opening.value, to)
    ensures Accounted(s', t, |t.deliveries|, s'.opening.value, to)
  {
  }

  lemma AllSurvive(s: Shard, s': Shard, me: Instance)
    requires Anchored(s, me) && Grows(s, s') && HandedOk(s')
    requires s'.writes == s.writes && s'.readers == s.readers && s'.rewinds == s.rewinds
    requires SequenceOf(s'.row.checkpoint).Some? ==> Sound(s', SequenceOf(s'.row.checkpoint).value)
    requires TipNext(s', me) && s'.row.checkpoint.None? ==> Quiescent(s') && me.owner !in s'.rewinds
    requires forall i :: 0 <= i < |s.readers| && Held(s.readers[i]) ==>
               && (SeenAnchored(s, me, s.readers[i]) ==> SeenAnchored(s', me, s.readers[i]))
               && (TipAnchored(s, me, s.readers[i]) ==> TipAnchored(s', me, s.readers[i]))
    ensures Anchored(s', me)
  {
    forall i | 0 <= i < |s.readers|
      ensures TrackOk(s', s.readers[i].track)
      ensures Held(s.readers[i]) ==> ReaderAnchored(s', me, s.readers[i])
    {
      TrackSurvives(s, s', s.readers[i].track);
      if Held(s.readers[i]) {
        ReaderAnchoredSurvives(s, s', me, s.readers[i]);
      }
    }
    forall w | w in s.writes
      ensures Sound(s', w.1)
    {
      SoundSurvives(s, s', w.1);
    }
    CursorsSurvive(s, s', me);
  }

  lemma CursorsSurvive(s: Shard, s': Shard, me: Instance)
    requires s.opening.Some? && Grows(s, s') && s'.rewinds == s.rewinds
    ensures FreshOk(s, me) ==> FreshOk(s', me)
    ensures me.owner in s.rewinds && CursorOk(s, me, s.rewinds[me.owner]) ==> CursorOk(s', me, s'.rewinds[me.owner])
  {
  }

  /** The log grows or closes, or a record settles. */
  lemma GrowthAnchored(s: Shard, s': Shard, me: Instance)
    requires Anchored(s, me) && Grows(s, s') && HandedOk(s')
    requires s' == s.(log := s'.log, closed := s'.closed, settled := s'.settled)
    ensures Anchored(s', me)
  {
    forall i | 0 <= i < |s.readers| && Held(s.readers[i])
      ensures SeenAnchored(s', me, s.readers[i]) && TipAnchored(s', me, s.readers[i])
    {
      assert ReaderAnchored(s, me, s.readers[i]);
    }
    AllSurvive(s, s', me);
  }

  /** The row changes, and no checkpoint is taken back. */
  lemma RowAnchored(s: Shard, me: Instance, row: Row)
    requires Anchored(s, me) && (s.row.checkpoint.Some? ==> row.checkpoint.Some?)
    requires SequenceOf(row.checkpoint).Some? ==> Sound(s, SequenceOf(row.checkpoint).value)
    ensures Anchored(s.(row := row), me)
  {
    AllSurvive(s, s.(row := row), me);
  }

  /** One reader moves. */
  lemma PutAnchored(s: Shard, me: Instance, id: nat, r: Reader)
    requires Anchored(s, me) && id < |s.readers| && r.lineage == s.readers[id].lineage
    requires TrackOk(s, r.track) && (Held(r) ==> Held(s.readers[id]) && ReaderAnchored(s, me, r))
    ensures Anchored(Put(s, id, r), me)
  {
    var s' := Put(s, id, r);
    ContinuingStays(s, s');
    forall i | 0 <= i < |s'.readers|
      ensures TrackOk(s', s'.readers[i].track)
      ensures Held(s'.readers[i]) ==> ReaderAnchored(s', me, s'.readers[i])
    {
      var x := if i == id then r else s.readers[i];
      TrackSurvives(s, s', x.track);
      if Held(x) {
        ReaderAnchoredSurvives(s, s', me, x);
      }
    }
    forall w | w in s.writes
      ensures Sound(s', w.1)
    {
      SoundSurvives(s, s', w.1);
    }
    CursorsSurvive(s, s', me);
  }

  lemma ContinuingStays(s: Shard, s': Shard)
    requires |s'.readers| == |s.readers|
    requires forall i :: 0 <= i < |s.readers| ==> s'.readers[i].lineage == s.readers[i].lineage
    ensures Continuing(s') == Continuing(s)
  {
    if Continuing(s) {
      var i :| 0 <= i < |s.readers| && s.readers[i].lineage.Continues?;
      assert s'.readers[i].lineage.Continues?;
    }
  }

  // ----- The steps -----

  /** The new iterator starts at a good cursor, or at the tip of a shard with nothing left to settle. */
  lemma FetchedAnchored(s: Shard, me: Instance, r: Reader, at: nat)
    requires Anchored(s, me) && ReaderAnchored(s, me, r) && TrackOk(s, r.track) && ReaderOurs(s, me, r)
    requires Held(r) && Ready(s, r, Fetch(Iterator(at), me.installed))
    requires Dated(me, StartOf(r, r.phase.seen, me.installed), at) && (r.lineage.Continues? ==> Continuing(s))
    ensures ReaderAnchored(s, me, Moved(s, r, Fetch(Iterator(at), me.installed)))
  {
    var start := StartOf(r, r.phase.seen, me.installed);
    StartAnchored(s, me, r);
    if start == Stream(Latest) {
      assert Quiescent(s) && at == |s.log|;
    } else {
      assert at == Point(start, me.stamp);
    }
  }

  lemma StartAnchored(s: Shard, me: Instance, r: Reader)
    requires s.opening.Some? && FreshOk(s, me) && ReaderAnchored(s, me, r) && ReaderOurs(s, me, r)
    requires r.phase.Fetching?
    ensures var start := StartOf(r, r.phase.seen, me.installed);
            || CursorOk(s, me, start)
            || (start == Stream(Latest) && Quiescent(s) && r.lineage.Opens? && OpensAtTip(me)
                && r.phase.seen.checkpoint.None? && r.rewind.None?)
  {
  }

  /** Stopping with nothing to hand on needs nothing; every other wait keeps what the reader has. */
  lemma MovedAnchored(s: Shard, me: Instance, r: Reader, step: ReaderStep)
    requires Anchored(s, me) && ReaderAnchored(s, me, r) && TrackOk(s, r.track) && ReaderOurs(s, me, r) && Ours(s, me)
    requires Held(r) && Ready(s, r, step) && (r.lineage.Continues? ==> Continuing(s))
    requires !step.HandOut? && (step.Fetch? ==> !step.answer.Iterator? && step.installed == me.installed)
    ensures ReaderAnchored(s, me, Moved(s, r, step))
  {
    if step.ReadRow? {
      ReadAnchored(s, me, r, step.heard);
    } else if step.RecordOpening? {
      RecordedAnchored(s, me, r, step);
    } else if step.Fetch? {
      UnfetchedAnchored(s, me, r, step);
    } else {
      WaitingAnchored(s, me, r, step);
    }
  }

  lemma UnfetchedAnchored(s: Shard, me: Instance, r: Reader, step: ReaderStep)
    requires s.opening.Some? && FreshOk(s, me) && ReaderAnchored(s, me, r) && ReaderOurs(s, me, r)
    requires Ready(s, r, step) && step.Fetch? && !step.answer.Iterator? && step.installed == me.installed
    ensures ReaderAnchored(s, me, Moved(s, r, step))
  {
    StartAnchored(s, me, r);
  }

  lemma WaitingAnchored(s: Shard, me: Instance, r: Reader, step: ReaderStep)
    requires s.opening.Some? && ReaderAnchored(s, me, r) && Ready(s, r, step)
    requires !step.ReadRow? && !step.RecordOpening? && !step.Fetch? && !step.HandOut?
    ensures ReaderAnchored(s, me, Moved(s, r, step))
  {
  }

  lemma ReadAnchored(s: Shard, me: Instance, r: Reader, heard: bool)
    requires Anchored(s, me) && ReaderAnchored(s, me, r) && ReaderOurs(s, me, r)
    requires Held(r) && r.phase.Opening? && s.row.openedAt.None?
    ensures ReaderAnchored(s, me, Moved(s, r, ReadRow(heard)))
  {
  }

  lemma RecordedAnchored(s: Shard, me: Instance, r: Reader, step: ReaderStep)
    requires s.opening.Some? && ReaderAnchored(s, me, r) && step.RecordOpening? && Ready(s, r, step)
    ensures ReaderAnchored(s, me, Moved(s, r, step))
  {
  }

  lemma ReaderStepAnchored(s: Shard, me: Instance, id: nat, step: ReaderStep)
    requires Anchored(s, me) && Ours(s, me) && Enabled(s, ByReader(id, step)) && Solo(s, me, ByReader(id, step))
    requires !step.HandOut?
    ensures Anchored(Do(s, ByReader(id, step)), me)
  {
    var r := s.readers[id];
    var r' := Moved(s, r, step);
    assert TrackOk(s, r.track);
    OwnStepAnchored(s, me, id, step);
    WaitingStep(s, r, step, me);
    PutAnchored(s, me, id, r');
    var s1 := Put(s, id, r');
    EffectAnchors(s, r, step);
    RowAnchored(s1, me, Effect(s, r, step).row);
    assert DoReader(s, id, step) == s1.(row := Effect(s, r, step).row);
  }

  lemma OwnStepAnchored(s: Shard, me: Instance, id: nat, step: ReaderStep)
    requires Anchored(s, me) && Ours(s, me) && Enabled(s, ByReader(id, step)) && Solo(s, me, ByReader(id, step))
    requires !step.HandOut?
    ensures Held(s.readers[id]) && ReaderAnchored(s, me, Moved(s, s.readers[id], step))
  {
    var r := s.readers[id];
    assert ReaderOurs(s, me, r) && ReaderAnchored(s, me, r) && TrackOk(s, r.track);
    assert r.lineage.Continues? ==> Continuing(s);
    if step.Fetch? && step.answer.Iterator? {
      FetchedAnchored(s, me, r, step.answer.at);
    } else {
      MovedAnchored(s, me, r, step);
    }
  }

  /** A store call of a reader that has an anchor: no checkpoint but the end mark. */
  lemma EffectAnchors(s: Shard, r: Reader, step: ReaderStep)
    requires Ready(s, r, step) && !step.HandOut? && !s.keeps && s.opening.Some?
    ensures var s' := Effect(s, r, step);
            s' == s.(row := s'.row)
            && (s'.row.checkpoint == s.row.checkpoint || s'.row.checkpoint == Some(ShardEnd))
  {
  }

  lemma HandOutAnchored(s: Shard, me: Instance, id: nat)
    requires Anchored(s, me) && Ours(s, me) && Enabled(s, ByReader(id, ReaderStep.HandOut))
    ensures Anchored(Do(s, ByReader(id, ReaderStep.HandOut)), me)
  {
    var r := s.readers[id];
    assert ReaderAnchored(s, me, r) && TrackOk(s, r.track) && ReaderOurs(s, me, r);
    if s.log[r.position].aggregated {
      HandedAnchored(s, me, r);
      PutAnchored(s, me, id, Moved(s, r, ReaderStep.HandOut));
    } else {
      var s1 := s.(handed := s.handed + {r.position});
      assert forall i :: 0 <= i < |s.readers| && i != id ==> !Held(s.readers[i]);
      AllSurvive(s, s1, me);
      assert ReaderAnchored(s1, me, s1.readers[id]) && TrackOk(s1, s1.readers[id].track);
      HandedAnchored(s1, me, r);
      PutAnchored(s1, me, id, Moved(s1, r, ReaderStep.HandOut));
    }
  }

  lemma HandedAnchored(s: Shard, me: Instance, r: Reader)
    requires s.opening.Some? && ReaderAnchored(s, me, r) && TrackOk(s, r.track) && Ready(s, r, ReaderStep.HandOut)
    requires s.log[r.position].aggregated || r.position in s.handed
    ensures ReaderAnchored(s, me, Moved(s, r, ReaderStep.HandOut)) && TrackOk(s, Moved(s, r, ReaderStep.HandOut).track)
  {
    if !s.log[r.position].aggregated {
      ExtendOk(s, r);
    }
  }

  lemma SettleAnchored(s: Shard, me: Instance, id: nat, index: nat)
    requires Anchored(s, me) && id < |s.readers| && index < |s.readers[id].track.deliveries|
    ensures Anchored(DoSettle(s, id, index), me)
  {
    var k := SettleIs(s, id, index);
    SettledAnchored(s, me, id, index);
    if k.Some? {
      AnswerAnchored(Acknowledged(s, id, index), me, id, k.value);
    }
  }

  lemma AnswerAnchored(s: Shard, me: Instance, id: nat, k: SequenceNumber)
    requires Anchored(s, me) && id < |s.readers| && TrackOk(s, s.readers[id].track)
    requires EndsPrefix(s.readers[id].track, k)
    ensures Anchored(s.(writes := s.writes + {(s.readers[id].owner, k)}), me)
  {
    EndIsSound(s, s.readers[id].track, k);
    WriteAnchored(s, me, (s.readers[id].owner, k));
  }

  lemma SettledAnchored(s: Shard, me: Instance, id: nat, index: nat)
    requires Anchored(s, me) && id < |s.readers| && index < |s.readers[id].track.deliveries|
    ensures var s' := Acknowledged(s, id, index); Anchored(s', me) && TrackOk(s', s'.readers[id].track)
  {
    var r := s.readers[id];
    var marked := Mark(r.track, index);
    assert TrackOk(s, r.track);
    var s1 := s.(settled := s.settled + {r.track.deliveries[index]});
    GrowthAnchored(s, s1, me);
    assert TrackOk(s1, s1.readers[id].track);
    MarkedAnchored(s1, me, r, index);
    PutAnchored(s1, me, id, r.(track := marked));
    var s2 := Put(s1, id, r.(track := marked));
    assert TrackOk(s2, s2.readers[id].track);
  }

  lemma MarkedAnchored(s: Shard, me: Instance, r: Reader, index: nat)
    requires s.opening.Some? && TrackOk(s, r.track) && index < |r.track.deliveries|
    requires r.track.deliveries[index] in s.settled
    ensures var r' := r.(track := Mark(r.track, index));
            TrackOk(s, r'.track) && (ReaderAnchored(s, me, r) ==> ReaderAnchored(s, me, r'))
  {
    MarkGrowsPrefix(r.track, index);
  }

  lemma WriteAnchored(s: Shard, me: Instance, w: (Owner, SequenceNumber))
    requires Anchored(s, me) && Sound(s, w.1)
    ensures Anchored(s.(writes := s.writes + {w}), me)
  {
    var s' := s.(writes := s.writes + {w});
    forall i | 0 <= i < |s.readers|
      ensures TrackOk(s', s.readers[i].track)
      ensures Held(s.readers[i]) ==> ReaderAnchored(s', me, s.readers[i])
    {
      TrackSurvives(s, s', s.readers[i].track);
      if Held(s.readers[i]) {
        ReaderAnchoredSurvives(s, s', me, s.readers[i]);
      }
    }
    forall x | x in s'.writes
      ensures Sound(s', x.1)
    {
      SoundSurvives(s, s', x.1);
    }
    CursorsSurvive(s, s', me);
  }

  lemma SpawnAnchored(s: Shard, me: Instance, lineage: Lineage, sawEnd: set<ShardId>)
    requires Anchored(s, me) && Ours(s, me) && Enabled(s, Spawn(me.owner, lineage, sawEnd))
    requires Solo(s, me, Spawn(me.owner, lineage, sawEnd))
    ensures Anchored(Do(s, Spawn(me.owner, lineage, sawEnd)), me)
  {
    var s' := Do(s, Spawn(me.owner, lineage, sawEnd));
    var r := Starting(s, me.owner, lineage, sawEnd);
    assert s'.readers == s.readers + [r];
    assert Continuing(s) ==> Continuing(s') by {
      if Continuing(s) {
        var i :| 0 <= i < |s.readers| && s.readers[i].lineage.Continues?;
        assert s'.readers[i].lineage.Continues?;
      }
    }
    forall i | 0 <= i < |s'.readers|
      ensures TrackOk(s', s'.readers[i].track)
      ensures Held(s'.readers[i]) ==> i == |s.readers|
    {
      if i < |s.readers| {
        assert ReaderOurs(s, me, s.readers[i]);
        TrackSurvives(s, s', s.readers[i].track);
      }
    }
    StartedAnchored(s, s', me, r);
    forall w | w in s'.writes
      ensures Sound(s', w.1)
    {
      SoundSurvives(s, s', w.1);
    }
  }

  lemma StartedAnchored(s: Shard, s': Shard, me: Instance, r: Reader)
    requires Anchored(s, me) && Grows(s, s') && s'.row == s.row && (Continuing(s) ==> Continuing(s'))
    requires r.phase == Opening(false)
    requires r.rewind == if me.owner in s.rewinds then Some(s.rewinds[me.owner]) else None
    ensures ReaderAnchored(s', me, r) && FreshOk(s', me)
  {
  }

  lemma ForgetAnchored(s: Shard, me: Instance, id: nat)
    requires Anchored(s, me) && Ours(s, me) && Enabled(s, Forget(id))
    ensures Anchored(Do(s, Forget(id)), me)
  {
    var r := s.readers[id];
    assert ReaderAnchored(s, me, r) && ReaderOurs(s, me, r);
    var s1 := Put(s, id, r.(phase := Forgotten));
    PutAnchored(s, me, id, r.(phase := Forgotten));
    ContinuingStays(s, s1);
    NobodyAnchored(s1, DoForget(s, id), me);
  }

  /** No reader is left; the cursor kept for the next one is a good one, if there is one. */
  lemma NobodyAnchored(s: Shard, s': Shard, me: Instance)
    requires Anchored(s, me) && s' == s.(readers := s'.readers, rewinds := s'.rewinds)
    requires |s'.readers| == |s.readers|
    requires forall i :: 0 <= i < |s.readers| ==>
               && s'.readers[i].track == s.readers[i].track && s'.readers[i].lineage == s.readers[i].lineage
               && !Held(s'.readers[i])
    requires me.owner in s'.rewinds ==>
               CursorOk(s, me, s'.rewinds[me.owner]) && !(TipNext(s, me) && s.row.checkpoint.None?)
    ensures Anchored(s', me)
  {
    ContinuingStays(s, s');
    forall i | 0 <= i < |s'.readers|
      ensures TrackOk(s', s'.readers[i].track)
    {
      TrackSurvives(s, s', s.readers[i].track);
    }
    forall w | w in s'.writes
      ensures Sound(s', w.1)
    {
      SoundSurvives(s, s', w.1);
    }
  }

  lemma StepAnchored(s: Shard, me: Instance, a: Action)
    requires Anchored(s, me) && Ours(s, me) && Enabled(s, a) && Solo(s, me, a)
    ensures Anchored(Do(s, a), me)
  {
    if a.ByReader? {
      if a.step.HandOut? {
        HandOutAnchored(s, me, a.id);
      } else {
        ReaderStepAnchored(s, me, a.id, a.step);
      }
    } else {
      OtherStepAnchored(s, me, a);
    }
  }

  lemma OtherStepAnchored(s: Shard, me: Instance, a: Action)
    requires Anchored(s, me) && Ours(s, me) && Enabled(s, a) && Solo(s, me, a) && !a.ByReader?
    ensures Anchored(Do(s, a), me)
  {
    match a {
      case Spawn(_, lineage, sawEnd) => SpawnAnchored(s, me, lineage, sawEnd);
      case Forget(id) => ForgetAnchored(s, me, id);
      case Crash(_) => CrashAnchored(s, me);
      case Settle(id, index) => SettleAnchored(s, me, id, index);
      case _ => OutsideAnchored(s, me, a);
    }
  }

  lemma OutsideAnchored(s: Shard, me: Instance, a: Action)
    requires Anchored(s, me) && Enabled(s, a) && (a.Append? || a.Close? || a.TakeLease? || a.LandWrite?)
    ensures Anchored(Do(s, a), me)
  {
    var s' := Do(s, a);
    if a.Append? || a.Close? {
      GrowthAnchored(s, s', me);
    } else {
      RowAnchored(s, me, s'.row);
    }
  }

  lemma CrashAnchored(s: Shard, me: Instance)
    requires Anchored(s, me) && Ours(s, me)
    ensures Anchored(Do(s, Crash(me.owner)), me)
  {
    var s' := Do(s, Crash(me.owner));
    forall i | 0 <= i < |s.readers|
      ensures !Held(s'.readers[i])
    {
      assert ReaderOurs(s, me, s.readers[i]);
    }
    NobodyAnchored(s, s', me);
  }

  // ----- Iterators -----

  lemma AnchoredFetchSkipsNothing(s: Shard, me: Instance, id: nat, at: nat)
    requires Anchored(s, me) && Ours(s, me)
    requires Enabled(s, ByReader(id, Fetch(Iterator(at), me.installed)))
    requires Solo(s, me, ByReader(id, Fetch(Iterator(at), me.installed)))
    ensures !Skips(s, at)
  {
    var r := s.readers[id];
    assert ReaderAnchored(s, me, r) && ReaderOurs(s, me, r);
    StartAnchored(s, me, r);
  }
}
