/** One instance over a store that accepts the recorded opening and drops it. What then keeps a
    restarted reader from skipping records is the cursor a reader that gives up hands to the next
    one. */
module HandOff {
  import opened Wrappers
  import opened Cursor
  import opened Tracking
  import opened Lease
  import opened ShardProtocol
  import opened ShardSafety

  /** The only instance: the position its subscription has installed, which is one and the same for a
      whole run without seeks; whether the shard has parents; and where the service puts an iterator
      asked for at a timestamp, at the same record whenever it is asked. */
  datatype Instance = Instance(owner: Owner, installed: Option<StreamStart>, parented: bool,
                               stamp: nat -> SequenceNumber)

  /** Where a reader opens that has neither a checkpoint nor a cursor of an earlier reader. */
  function FreshCursor(me: Instance, lineage: Lineage): ShardStart {
    ReopenAt(None, None, None, lineage, me.installed)
  }

  /** Every other subscription opens all its readers at one fixed place. */
  predicate OpensAtTip(me: Instance) {
    FreshCursor(me, Opens) == Stream(Latest)
  }

  /** A parent was seen finished, and is from then on. */
  predicate Continuing(s: Shard) {
    exists i :: 0 <= i < |s.readers| && s.readers[i].lineage.Continues?
  }

  /** Some record has not settled and is before everything that was handed out. */
  predicate UnreadBefore(s: Shard) {
    exists q: nat :: q < |s.log| && !s.log[q].aggregated && q !in s.settled && forall h :: h in s.handed ==> q < h
  }

  /** The steps after which a reader hands no cursor on although it may have left records unsettled:
      the service says the stream is gone, it answers no iterator, or the end mark is not written. */
  predicate Loses(step: ReaderStep) {
    step.LoseStream? || (step.Fetch? && step.answer.NoIterator?) || (step.MarkEnd? && !step.lands)
  }

  /** These, and the ends of a subscription and of its process. */
  predicate Drops(step: ReaderStep) {
    Loses(step) || step.CloseChannel?
  }

  predicate Forgets(me: Instance, a: Action) {
    (a.ByReader? && Drops(a.step)) || a == Crash(me.owner)
  }

  /** When a lost cursor does no harm: a checkpoint is stored; nothing was handed out yet; every reader
      opens at one fixed place anyway; the next reader continues the parents, so it opens at the
      horizon, and nothing unread is before what was handed out; or the shard is closed and all that
      was handed out has settled, and no reader to come can hand out something before that. */
  predicate Harmless(s: Shard, me: Instance) {
    || s.row.checkpoint.Some?
    || s.handed == {}
    || !OpensAtTip(me)
    || (Continuing(s) && !UnreadBefore(s))
    || (s.closed && s.handed <= s.settled && (!me.parented || !UnreadBefore(s)))
  }

  /** The steps of the only instance: every reader is its own and started under its lease, a shard
      once continued stays so, and no step loses a cursor but where that does no harm. Failed reads,
      failed openings, failed renewals, expired iterators and give-ups are all allowed. */
  predicate Solo(s: Shard, me: Instance, a: Action) {
    && (Forgets(me, a) ==> Harmless(s, me))
    && match a
       case TakeLease(owner, _, _) => owner == me.owner
       case Spawn(owner, lineage, _) =>
         owner == me.owner && s.row.owner == Some(me.owner)
         && (lineage.Continues? ==> me.parented) && (Continuing(s) ==> lineage.Continues?)
       case ByReader(id, step) =>
         step.Fetch? ==>
           && step.installed == me.installed
           && (id < |s.readers| && s.readers[id].phase.Fetching? && step.answer.Iterator? ==>
                 Dated(me, StartOf(s.readers[id], s.readers[id].phase.seen, step.installed), step.answer.at))
       case Crash(owner) => owner == me.owner
       case _ => true
  }

  predicate Dated(me: Instance, start: ShardStart, at: nat) {
    start.Stream? && start.start.Timestamp? ==> at == me.stamp(start.start.millis)
  }

  ghost predicate FixedIfAny(start: Option<ShardStart>) {
    start.Some? ==> Fixed(start.value)
  }

  /** A cursor that reads again everything handed out and not settled. */
  ghost predicate Good(s: Shard, me: Instance, start: Option<ShardStart>)
    requires s.opening.Some?
  {
    && start.Some? && Fixed(start.value)
    && s.opening.value <= Point(start.value, me.stamp) <= |s.log|
    && SettledThrough(s, s.opening.value, Point(start.value, me.stamp))
  }

  /** The cursor a reader holds, or leaves behind when it stops. */
  function Kept(r: Reader): Option<ShardStart> {
    match r.phase
    case Releasing(handOff) => handOff
    case Stopped(handOff) => handOff
    case _ => r.rewind
  }

  ghost predicate LogOk(s: Shard, me: Instance) {
    && !s.keeps && RecordsOk(s)
    && s.row.openedAt.None?
    && (s.row.owner.Some? ==> s.row.owner.value == me.owner)
    && (SequenceOf(s.row.checkpoint).Some? ==> Sound(s, SequenceOf(s.row.checkpoint).value))
    && (s.row.checkpoint == Some(ShardEnd) ==>
          s.closed && (s.opening.Some? ==> SettledThrough(s, s.opening.value, |s.log|)))
    && (forall w :: w in s.writes ==> Sound(s, w.1) && w.0 == me.owner && w.1 in s.handed)
  }

  /** Nobody has recorded a reading yet: the reader has not moved since its iterator was fetched. */
  ghost predicate BeforeOpening(s: Shard, me: Instance, r: Reader) {
    s.opening.None? && (Active(r) || r.phase.Fetching?) ==>
      && s.row.checkpoint.None?
      && (Active(r) && r.rewind.Some? ==> Fixed(r.rewind.value) && r.position == Point(r.rewind.value, me.stamp))
  }

  /** Once something was recorded, the reader accounts for everything behind it, and without a
      checkpoint it holds a cursor that reads again what it has to. */
  ghost predicate AfterOpening(s: Shard, me: Instance, r: Reader) {
    s.opening.Some? ==>
      && (Active(r) ==>
            s.opening.value <= r.position
            && Accounted(s, r.track, |r.track.deliveries|, s.opening.value, r.position))
      && (s.row.checkpoint.None? ==> Good(s, me, Kept(r)))
      && (r.phase.Fetching? && r.phase.seen.checkpoint.None? ==> Good(s, me, r.rewind))
  }

  ghost predicate HeldOk(s: Shard, me: Instance, r: Reader) {
    && r.owner == me.owner
    && PlaceOk(s, r) && FixedIfAny(r.rewind) && FixedIfAny(Kept(r))
    && (r.phase.Fetching? ==>
          && r.phase.seen.checkpoint != Some(ShardEnd) && r.phase.seen.openedAt.None?
          && (SequenceOf(r.phase.seen.checkpoint).Some? ==>
                Sound(s, SequenceOf(r.phase.seen.checkpoint).value)))
    && (!r.phase.Stopped? ==> s.row.owner == Some(me.owner))
    && BeforeOpening(s, me, r) && AfterOpening(s, me, r)
  }

  /** The coordinator keeps a cursor only while no reader has it. */
  ghost predicate BetweenReaders(s: Shard, me: Instance) {
    && (me.owner in s.rewinds ==> Fixed(s.rewinds[me.owner]) && forall i :: 0 <= i < |s.readers| ==> !Held(s.readers[i]))
    && ((forall i :: 0 <= i < |s.readers| ==> !Held(s.readers[i])) && s.opening.Some? && s.row.checkpoint.None? ==>
          me.owner in s.rewinds && Good(s, me, Some(s.rewinds[me.owner])))
  }

  ghost predicate SoloInv(s: Shard, me: Instance) {
    && LogOk(s, me)
    && (forall i :: 0 <= i < |s.readers| ==> s.readers[i].owner == me.owner && TrackOk(s, s.readers[i].track))
    && (forall i :: 0 <= i < |s.readers| && Held(s.readers[i]) ==> HeldOk(s, me, s.readers[i]))
    && OneReaderEach(s)
    && BetweenReaders(s, me)
  }

  // ----- What survives a step -----

  /** A step that adds records and keeps the row: every reader carries on. */
  lemma GrowthKeeps(s: Shard, s': Shard, me: Instance)
    requires SoloInv(s, me) && Grows(s, s') && s' == s.(log := s'.log, closed := s'.closed, handed := s'.handed,
                                                        settled := s'.settled)
    requires RecordsOk(s')
    ensures SoloInv(s', me)
  {
    forall w | w in s.writes
      ensures Sound(s', w.1)
    {
      SoundSurvives(s, s', w.1);
    }
    forall i | 0 <= i < |s.readers|
      ensures TrackOk(s', s.readers[i].track)
    {
      TrackSurvives(s, s', s.readers[i].track);
    }
    forall i | 0 <= i < |s.readers| && Held(s.readers[i])
      ensures HeldOk(s', me, s.readers[i])
    {
      HeldSurvives(s, s', me, s.readers[i]);
    }
  }

  lemma HeldSurvives(s: Shard, s': Shard, me: Instance, r: Reader)
    requires Grows(s, s') && HeldOk(s, me, r) && RecordsOk(s) && s'.row == s.row
    ensures HeldOk(s', me, r)
  {
  }

  /** A step of one reader that leaves everything else alone. */
  lemma MoveKeeps(s: Shard, me: Instance, id: nat, r: Reader)
    requires SoloInv(s, me) && id < |s.readers|
    requires Held(r) == Held(s.readers[id]) && r.owner == me.owner && TrackOk(s, r.track)
    requires Held(r) ==> HeldOk(s, me, r)
    ensures SoloInv(Put(s, id, r), me)
  {
    var s' := Put(s, id, r);
    forall i | 0 <= i < |s'.readers|
      ensures s'.readers[i].owner == me.owner && TrackOk(s', s'.readers[i].track)
    {
      TrackSurvives(s, s', if i == id then r.track else s.readers[i].track);
    }
    forall i | 0 <= i < |s'.readers| && Held(s'.readers[i])
      ensures HeldOk(s', me, s'.readers[i])
    {
      HeldSurvives(s, s', me, s'.readers[i]);
    }
    if forall i :: 0 <= i < |s'.readers| ==> !Held(s'.readers[i]) {
      forall i | 0 <= i < |s.readers|
        ensures !Held(s.readers[i])
      {
        assert !Held(s'.readers[i]);
      }
    }
  }

  /** The row changes; whoever is held still agrees with it. */
  lemma RowChangeKeeps(s: Shard, me: Instance, row: Row)
    requires SoloInv(s, me) && LogOk(s.(row := row), me)
    requires s.row.checkpoint.Some? ==> row.checkpoint.Some?
    requires forall i :: 0 <= i < |s.readers| && Held(s.readers[i]) ==>
               && (!s.readers[i].phase.Stopped? ==> row.owner == Some(me.owner))
               && BeforeOpening(s.(row := row), me, s.readers[i])
    ensures SoloInv(s.(row := row), me)
  {
    var s' := s.(row := row);
    forall i | 0 <= i < |s.readers|
      ensures TrackOk(s', s.readers[i].track)
    {
      TrackSurvives(s, s', s.readers[i].track);
    }
    forall i | 0 <= i < |s.readers| && Held(s.readers[i])
      ensures HeldOk(s', me, s.readers[i])
    {
      assert HeldOk(s, me, s.readers[i]);
    }
  }

  /** The row's holder and expiry change, and stay this instance's while a reader needs them. */
  lemma HolderChangeKeeps(s: Shard, me: Instance, row: Row)
    requires SoloInv(s, me) && row.checkpoint == s.row.checkpoint && row.openedAt == s.row.openedAt
    requires row.owner.Some? ==> row.owner.value == me.owner
    requires (forall i :: 0 <= i < |s.readers| && Held(s.readers[i]) ==> s.readers[i].phase.Stopped?)
             || row.owner == Some(me.owner)
    ensures SoloInv(s.(row := row), me)
  {
    var s' := s.(row := row);
    forall w | w in s.writes
      ensures Sound(s', w.1)
    {
      SoundSurvives(s, s', w.1);
    }
    RowChangeKeeps(s, me, row);
  }

  // ----- The steps -----

  lemma SpawnKeepsSolo(s: Shard, me: Instance, lineage: Lineage, sawEnd: set<ShardId>)
    requires SoloInv(s, me) && NoReaderOf(s, me.owner) && s.row.owner == Some(me.owner)
    ensures SoloInv(Do(s, Spawn(me.owner, lineage, sawEnd)), me)
  {
    var s' := Do(s, Spawn(me.owner, lineage, sawEnd));
    var r := Starting(s, me.owner, lineage, sawEnd);
    assert forall i :: 0 <= i < |s.readers| ==> !Held(s.readers[i]);
    StartedHeldOk(s, s', me, r);
    assert s'.readers == s.readers + [r] && s' == s.(readers := s'.readers, rewinds := s'.rewinds);
    forall i | 0 <= i < |s'.readers|
      ensures s'.readers[i].owner == me.owner && TrackOk(s', s'.readers[i].track)
    {
      if i < |s.readers| {
        TrackSurvives(s, s', s.readers[i].track);
      }
    }
    assert Held(s'.readers[|s.readers|]);
  }

  lemma StartedHeldOk(s: Shard, s': Shard, me: Instance, r: Reader)
    requires LogOk(s, me) && BetweenReaders(s, me) && s.row.owner == Some(me.owner)
    requires forall i :: 0 <= i < |s.readers| ==> !Held(s.readers[i])
    requires s' == s.(readers := s'.readers, rewinds := s'.rewinds)
    requires exists lineage, sawEnd :: r == Starting(s, me.owner, lineage, sawEnd)
    ensures HeldOk(s', me, r) && LogOk(s', me)
  {
  }

  lemma FetchKeepsSolo(s: Shard, me: Instance, id: nat, step: ReaderStep)
    requires SoloInv(s, me) && id < |s.readers| && step.Fetch? && Ready(s, s.readers[id], step)
    requires Solo(s, me, ByReader(id, step)) && !Drops(step)
    ensures SoloInv(Do(s, ByReader(id, step)), me)
  {
    var r := s.readers[id];
    assert HeldOk(s, me, r);
    assert TrackOk(s, r.track);
    if step.answer.Iterator? {
      FetchedOk(s, me, r, step);
    }
    MoveKeeps(s, me, id, Moved(s, r, step));
  }

  /** The new iterator starts after the checkpoint the row gave, or at the cursor the reader held,
      or, before anything was recorded, wherever the subscription says. */
  lemma FetchedOk(s: Shard, me: Instance, r: Reader, step: ReaderStep)
    requires LogOk(s, me) && HeldOk(s, me, r)
    requires step.Fetch? && step.answer.Iterator? && Ready(s, r, step)
    requires Dated(me, StartOf(r, r.phase.seen, step.installed), step.answer.at)
    ensures HeldOk(s, me, Moved(s, r, step))
  {
  }

  lemma RecordOpeningKeepsSolo(s: Shard, me: Instance, id: nat, step: ReaderStep)
    requires SoloInv(s, me) && id < |s.readers| && step.RecordOpening? && Ready(s, s.readers[id], step)
    ensures SoloInv(Do(s, ByReader(id, step)), me)
  {
    var r := s.readers[id];
    assert HeldOk(s, me, r);
    assert TrackOk(s, r.track);
    var r' := Moved(s, r, step);
    if Records(s, r, step.lands) && s.opening.None? {
      FirstOpeningKeeps(s, me, id, r');
    } else {
      MoveKeeps(s, me, id, r');
    }
  }

  lemma FirstOpening(s: Shard, me: Instance, id: nat)
    requires SoloInv(s, me) && id < |s.readers| && s.readers[id].phase.Handing? && s.opening.None?
    requires s.readers[id].position < |s.log|
    ensures LogOk(s.(opening := Some(s.readers[id].position)), me)
    ensures forall i :: 0 <= i < |s.readers| ==>
              TrackOk(s.(opening := Some(s.readers[id].position)), s.readers[i].track)
    ensures s.readers[id].track.deliveries == [] && forall w :: w !in s.writes
  {
  }

  /** The first recording ever: nothing was handed out before it, and the reader has a cursor for
      the record it recorded. */
  lemma FirstOpeningKeeps(s: Shard, me: Instance, id: nat, r': Reader)
    requires SoloInv(s, me) && id < |s.readers| && s.readers[id].phase.Handing? && s.opening.None?
    requires var r := s.readers[id];
             && r.position < r.phase.upto
             && (r' == r.(rewind := RewindHere(r), unrecorded := false)
                 || r' == r.(rewind := RewindHere(r), phase := Stopped(RewindHere(r))))
    ensures SoloInv(Put(s.(opening := Some(s.readers[id].position)), id, r'), me)
  {
    var r := s.readers[id];
    assert HeldOk(s, me, r);
    var s1 := s.(opening := Some(r.position));
    FirstOpening(s, me, id);
    var s2 := Put(s1, id, r');
    forall i | 0 <= i < |s2.readers|
      ensures s2.readers[i].owner == me.owner && TrackOk(s2, s2.readers[i].track)
    {
      TrackSurvives(s1, s2, s.readers[i].track);
    }
    forall i | 0 <= i < |s2.readers| && Held(s2.readers[i])
      ensures HeldOk(s2, me, s2.readers[i])
    {
      assert i == id;
    }
    assert Held(s2.readers[id]);
  }

  lemma HandOutKeepsSolo(s: Shard, me: Instance, id: nat)
    requires SoloInv(s, me) && id < |s.readers| && Ready(s, s.readers[id], ReaderStep.HandOut)
    ensures SoloInv(Do(s, ByReader(id, ReaderStep.HandOut)), me)
  {
    var r := s.readers[id];
    assert HeldOk(s, me, r);
    assert TrackOk(s, r.track);
    if s.log[r.position].aggregated {
      HandedHeldOk(s, me, r);
      MoveKeeps(s, me, id, Moved(s, r, ReaderStep.HandOut));
    } else {
      var s1 := s.(handed := s.handed + {r.position});
      GrowthKeeps(s, s1, me);
      assert HeldOk(s1, me, r) && TrackOk(s1, s1.readers[id].track);
      HandedHeldOk(s1, me, r);
      MoveKeeps(s1, me, id, Moved(s1, r, ReaderStep.HandOut));
    }
  }

  lemma HandedHeldOk(s: Shard, me: Instance, r: Reader)
    requires LogOk(s, me) && HeldOk(s, me, r) && TrackOk(s, r.track) && Ready(s, r, ReaderStep.HandOut)
    requires s.log[r.position].aggregated || r.position in s.handed
    ensures HeldOk(s, me, Moved(s, r, ReaderStep.HandOut)) && TrackOk(s, Moved(s, r, ReaderStep.HandOut).track)
  {
    if !s.log[r.position].aggregated {
      ExtendOk(s, r);
    }
  }

  lemma MarkEndKeepsSolo(s: Shard, me: Instance, id: nat)
    requires SoloInv(s, me) && id < |s.readers| && s.readers[id].phase.Marking?
    ensures SoloInv(Do(s, ByReader(id, MarkEnd(true))), me)
  {
    var r := s.readers[id];
    assert HeldOk(s, me, r);
    assert TrackOk(s, r.track);
    var row := s.row.(checkpoint := Some(ShardEnd));
    MarkedEndLogOk(s, me, r);
    var r' := r.(phase := Releasing(None));
    var s' := Put(s.(row := row), id, r');
    assert s' == DoReader(s, id, MarkEnd(true));
    MarkedEndHeldOk(s, s', me, r);
    assert Held(s'.readers[id]);
    forall i | 0 <= i < |s'.readers|
      ensures s'.readers[i].owner == me.owner && TrackOk(s', s'.readers[i].track)
    {
      TrackSurvives(s, s', s.readers[i].track);
    }
    assert forall i :: 0 <= i < |s'.readers| && Held(s'.readers[i]) ==> i == id;
  }

  lemma MarkedEndHeldOk(s: Shard, s': Shard, me: Instance, r: Reader)
    requires HeldOk(s, me, r) && r.phase.Marking?
    requires s' == s.(row := s.row.(checkpoint := Some(ShardEnd)), readers := s'.readers)
    ensures HeldOk(s', me, r.(phase := Releasing(None)))
  {
  }

  lemma MarkedEndLogOk(s: Shard, me: Instance, r: Reader)
    requires LogOk(s, me) && HeldOk(s, me, r) && TrackOk(s, r.track) && r.phase.Marking?
    ensures LogOk(s.(row := s.row.(checkpoint := Some(ShardEnd))), me)
  {
    if s.opening.Some? {
      DrainedIsSettled(s, r.track, s.opening.value, |s.log|);
    }
  }

  lemma ReleaseKeepsSolo(s: Shard, me: Instance, id: nat, lands: bool)
    requires SoloInv(s, me) && id < |s.readers| && s.readers[id].phase.Releasing?
    ensures SoloInv(Do(s, ByReader(id, ReleaseLease(lands))), me)
  {
    var r := s.readers[id];
    assert HeldOk(s, me, r);
    assert TrackOk(s, r.track);
    var stopped := r.(phase := Stopped(r.phase.handOff));
    MoveKeeps(s, me, id, stopped);
    if lands {
      var s1 := Put(s, id, stopped);
      forall i | 0 <= i < |s1.readers| && Held(s1.readers[i])
        ensures s1.readers[i].phase.Stopped?
      {
        assert i == id;
      }
      HolderChangeKeeps(s1, me, Apply(s.row, Op.Release(me.owner)));
    }
  }

  lemma RenewKeepsSolo(s: Shard, me: Instance, id: nat, step: ReaderStep)
    requires SoloInv(s, me) && id < |s.readers| && step.RenewLease? && s.readers[id].phase.Reading?
    ensures SoloInv(Do(s, ByReader(id, step)), me)
  {
    var r := s.readers[id];
    assert HeldOk(s, me, r);
    assert TrackOk(s, r.track);
    var r' := Moved(s, r, step);
    MoveKeeps(s, me, id, r');
    if step.lands {
      HolderChangeKeeps(Put(s, id, r'), me, Apply(s.row, Renew(me.owner, step.now, step.ttl)));
    }
  }

  lemma ReadRowKeepsSolo(s: Shard, me: Instance, id: nat, heard: bool)
    requires SoloInv(s, me) && id < |s.readers| && s.readers[id].phase.Opening?
    ensures SoloInv(Do(s, ByReader(id, ReadRow(heard))), me)
  {
    assert HeldOk(s, me, s.readers[id]);
    assert TrackOk(s, s.readers[id].track);
    MoveKeeps(s, me, id, Moved(s, s.readers[id], ReadRow(heard)));
  }

  lemma LocalKeepsSolo(s: Shard, me: Instance, id: nat, step: ReaderStep)
    requires SoloInv(s, me) && id < |s.readers| && Ready(s, s.readers[id], step)
    requires step.GetRecords? || step.FinishBatch? || step.SeeDrained? || step.ExpireIterator? || step.GiveUp?
    ensures SoloInv(Do(s, ByReader(id, step)), me)
  {
    var r := s.readers[id];
    assert HeldOk(s, me, r);
    assert TrackOk(s, r.track);
    var r' := r.(phase := Moved(s, r, step).phase);
    assert Kept(r') == r.rewind;
    MoveKeeps(s, me, id, r');
  }

  /** A reader that stops with nothing to hand on, when nothing depends on it. */
  lemma LossKeepsSolo(s: Shard, me: Instance, id: nat, step: ReaderStep)
    requires SoloInv(s, me) && id < |s.readers| && Drops(step) && Ready(s, s.readers[id], step)
    requires s.row.checkpoint.Some? || s.opening.None?
    ensures SoloInv(Do(s, ByReader(id, step)), me)
  {
    assert HeldOk(s, me, s.readers[id]);
    assert TrackOk(s, s.readers[id].track);
    MoveKeeps(s, me, id, Moved(s, s.readers[id], step));
  }

  lemma CrashKeepsSolo(s: Shard, me: Instance)
    requires SoloInv(s, me) && (s.row.checkpoint.Some? || s.opening.None?)
    ensures SoloInv(Do(s, Crash(me.owner)), me)
  {
    var s' := Do(s, Crash(me.owner));
    forall i | 0 <= i < |s'.readers|
      ensures s'.readers[i].owner == me.owner && TrackOk(s', s'.readers[i].track) && !Held(s'.readers[i])
    {
      TrackSurvives(s, s', s.readers[i].track);
    }
    forall w | w in s.writes
      ensures Sound(s', w.1)
    {
      SoundSurvives(s, s', w.1);
    }
  }

  lemma ReaderStepKeepsSolo(s: Shard, me: Instance, id: nat, step: ReaderStep)
    requires SoloInv(s, me) && Enabled(s, ByReader(id, step)) && Solo(s, me, ByReader(id, step))
    requires Drops(step) ==> s.row.checkpoint.Some? || s.opening.None?
    ensures SoloInv(Do(s, ByReader(id, step)), me)
  {
    if Drops(step) {
      LossKeepsSolo(s, me, id, step);
    } else {
      match step {
        case Fetch(_, _) => FetchKeepsSolo(s, me, id, step);
        case RecordOpening(_, _) => RecordOpeningKeepsSolo(s, me, id, step);
        case HandOut => HandOutKeepsSolo(s, me, id);
        case MarkEnd(_) => MarkEndKeepsSolo(s, me, id);
        case ReleaseLease(lands) => ReleaseKeepsSolo(s, me, id, lands);
        case RenewLease(_, _, _, _) => RenewKeepsSolo(s, me, id, step);
        case ReadRow(heard) => ReadRowKeepsSolo(s, me, id, heard);
        case _ => LocalKeepsSolo(s, me, id, step);
      }
    }
  }

  lemma ForgetKeepsSolo(s: Shard, me: Instance, id: nat)
    requires SoloInv(s, me) && id < |s.readers| && s.readers[id].phase.Stopped?
    ensures SoloInv(DoForget(s, id), me)
  {
    assert HeldOk(s, me, s.readers[id]);
    var s' := DoForget(s, id);
    forall i | 0 <= i < |s'.readers|
      ensures s'.readers[i].owner == me.owner && TrackOk(s', s'.readers[i].track) && !Held(s'.readers[i])
    {
      TrackSurvives(s, s', s.readers[i].track);
    }
    forall w | w in s.writes
      ensures Sound(s', w.1)
    {
      SoundSurvives(s, s', w.1);
    }
  }

  lemma MarkKeepsSolo(s: Shard, me: Instance, id: nat, index: nat)
    requires SoloInv(s, me) && id < |s.readers| && index < |s.readers[id].track.deliveries|
    ensures var s' := Acknowledged(s, id, index);
            SoloInv(s', me) && TrackOk(s', s'.readers[id].track) && s.readers[id].owner == me.owner
  {
    var r := s.readers[id];
    assert TrackOk(s, r.track);
    var s1 := s.(settled := s.settled + {r.track.deliveries[index]});
    GrowthKeeps(s, s1, me);
    MarkedReaderOk(s1, me, id, index);
    MoveKeeps(s1, me, id, r.(track := Mark(r.track, index)));
    var s' := Put(s1, id, r.(track := Mark(r.track, index)));
    assert TrackOk(s', s'.readers[id].track);
  }

  lemma SettleKeepsSolo(s: Shard, me: Instance, id: nat, index: nat)
    requires SoloInv(s, me) && id < |s.readers| && index < |s.readers[id].track.deliveries|
    ensures SoloInv(DoSettle(s, id, index), me)
  {
    var k := SettleIs(s, id, index);
    MarkKeepsSolo(s, me, id, index);
    if k.Some? {
      AnswerKeepsSolo(Acknowledged(s, id, index), me, id, k.value);
    }
  }

  lemma AnswerKeepsSolo(s: Shard, me: Instance, id: nat, k: SequenceNumber)
    requires SoloInv(s, me) && id < |s.readers| && TrackOk(s, s.readers[id].track)
    requires EndsPrefix(s.readers[id].track, k)
    ensures SoloInv(s.(writes := s.writes + {(s.readers[id].owner, k)}), me)
  {
    EndIsSound(s, s.readers[id].track, k);
    WriteKeepsSolo(s, me, s.readers[id].owner, k);
  }

  lemma MarkedReaderOk(s: Shard, me: Instance, id: nat, index: nat)
    requires SoloInv(s, me) && id < |s.readers| && index < |s.readers[id].track.deliveries|
    requires s.readers[id].track.deliveries[index] in s.settled
    ensures var r := s.readers[id].(track := Mark(s.readers[id].track, index));
            TrackOk(s, r.track) && r.owner == me.owner && (Held(r) ==> HeldOk(s, me, r))
  {
  }

  lemma WriteKeepsSolo(s: Shard, me: Instance, owner: Owner, k: SequenceNumber)
    requires SoloInv(s, me) && Sound(s, k) && k in s.handed && owner == me.owner
    ensures SoloInv(s.(writes := s.writes + {(owner, k)}), me)
  {
    var s' := s.(writes := s.writes + {(owner, k)});
    forall i | 0 <= i < |s.readers|
      ensures TrackOk(s', s.readers[i].track)
    {
      TrackSurvives(s, s', s.readers[i].track);
    }
    forall i | 0 <= i < |s.readers| && Held(s.readers[i])
      ensures HeldOk(s', me, s.readers[i])
    {
      HeldSurvives(s, s', me, s.readers[i]);
    }
    forall w | w in s'.writes
      ensures Sound(s', w.1)
    {
      SoundSurvives(s, s', w.1);
    }
  }

  lemma SoloStepKeeps(s: Shard, me: Instance, a: Action)
    requires SoloInv(s, me) && Enabled(s, a) && Solo(s, me, a)
    requires Forgets(me, a) ==> s.row.checkpoint.Some? || s.opening.None?
    ensures SoloInv(Do(s, a), me)
  {
    match a {
      case Append(record) => GrowthKeeps(s, Do(s, a), me);
      case Close => GrowthKeeps(s, Do(s, a), me);
      case TakeLease(_, _, _) => RowChangeKeeps(s, me, Do(s, a).row);
      case Spawn(_, lineage, sawEnd) => SpawnKeepsSolo(s, me, lineage, sawEnd);
      case ByReader(id, step) => ReaderStepKeepsSolo(s, me, id, step);
      case Forget(id) => ForgetKeepsSolo(s, me, id);
      case Crash(_) => CrashKeepsSolo(s, me);
      case Settle(id, index) => SettleKeepsSolo(s, me, id, index);
      case LandWrite(_, _) => RowChangeKeeps(s, me, Do(s, a).row);
    }
  }

  // ----- Losing a cursor before anything was handed out -----

  lemma OpeningIsOnlyWatchedByReaders(s: Shard, r: Reader, step: ReaderStep, from: Option<SequenceNumber>)
    requires Ready(s, r, step)
    ensures var t := s.(opening := from);
            && Ready(t, r, step) && Moved(t, r, step) == Moved(s, r, step)
            && Effect(t, r, step) == Effect(s, r, step).(opening := Effect(t, r, step).opening)
  {
  }

  lemma OpeningIsOnlyWatched(s: Shard, a: Action, from: Option<SequenceNumber>)
    requires Enabled(s, a)
    ensures var t := s.(opening := from);
            Enabled(t, a) && Do(t, a) == Do(s, a).(opening := Do(t, a).opening)
  {
    if a.ByReader? {
      OpeningIsOnlyWatchedByReaders(s, s.readers[a.id], a.step, from);
    }
  }

  /** `opening` only names the place the proofs count from: one that nothing was handed out from may be
      forgotten. */
  lemma UnhandedLossKeeps(s: Shard, me: Instance, id: nat, step: ReaderStep)
    requires SoloInv(s, me) && id < |s.readers| && Drops(step) && Ready(s, s.readers[id], step)
    requires s.handed == {} && s.row.checkpoint.None?
    ensures SoloInv(Do(s, ByReader(id, step)).(opening := None), me)
  {
    var r := s.readers[id];
    assert HeldOk(s, me, r);
    var s' := s.(readers := s.readers[id := Moved(s, r, step)], opening := None);
    DropMoves(s, id, step);
    assert s' == Do(s, ByReader(id, step)).(opening := None);
    LostHeldOk(s, s', me, r, step);
    UnhandedPutKeeps(s, s', me, id);
  }

  lemma DropMoves(s: Shard, id: nat, step: ReaderStep)
    requires id < |s.readers| && Drops(step) && Ready(s, s.readers[id], step)
    ensures var r, r' := s.readers[id], Moved(s, s.readers[id], step);
            && DoReader(s, id, step) == s.(readers := s.readers[id := r'])
            && Held(r) && (r'.phase == Releasing(None) || r'.phase == Stopped(None)) && r'.track == r.track
  {
  }

  lemma UnhandedPutKeeps(s: Shard, s': Shard, me: Instance, id: nat)
    requires SoloInv(s, me) && s.handed == {} && s.row.checkpoint.None? && id < |s.readers| && Held(s.readers[id])
    requires |s'.readers| == |s.readers| && s' == s.(readers := s.readers[id := s'.readers[id]], opening := None)
    requires Held(s'.readers[id]) && HeldOk(s', me, s'.readers[id]) && s'.readers[id].track == s.readers[id].track
    ensures SoloInv(s', me)
  {
    UnhandedLogOk(s, s', me);
    UnhandedTracksOk(s, s');
    assert forall i :: 0 <= i < |s'.readers| && Held(s'.readers[i]) ==> i == id;
  }

  lemma UnhandedTracksOk(s: Shard, s': Shard)
    requires s.handed == {} && |s'.readers| == |s.readers|
    requires forall i :: 0 <= i < |s.readers| ==>
               TrackOk(s, s.readers[i].track) && s'.readers[i].track == s.readers[i].track
    ensures forall i :: 0 <= i < |s'.readers| ==> TrackOk(s', s'.readers[i].track)
  {
    forall i | 0 <= i < |s'.readers|
      ensures TrackOk(s', s'.readers[i].track)
    {
      UnhandedTrackOk(s, s', s.readers[i].track);
    }
  }

  lemma UnhandedLogOk(s: Shard, s': Shard, me: Instance)
    requires LogOk(s, me) && s.handed == {} && s.row.checkpoint.None?
    requires s' == s.(readers := s'.readers, opening := None)
    ensures LogOk(s', me)
  {
  }

  lemma UnhandedCrashKeeps(s: Shard, me: Instance)
    requires SoloInv(s, me) && s.handed == {} && s.row.checkpoint.None?
    ensures SoloInv(Do(s, Crash(me.owner)).(opening := None), me)
  {
    var s' := Do(s, Crash(me.owner)).(opening := None);
    forall i | 0 <= i < |s'.readers|
      ensures s'.readers[i].owner == me.owner && TrackOk(s', s'.readers[i].track) && !Held(s'.readers[i])
    {
      UnhandedTrackOk(s, s', s.readers[i].track);
    }
  }

  lemma LostHeldOk(s: Shard, s': Shard, me: Instance, r: Reader, step: ReaderStep)
    requires HeldOk(s, me, r) && Drops(step) && Ready(s, r, step)
    requires s'.opening.None? && s'.row == s.row && s'.log == s.log && s'.closed == s.closed
    ensures HeldOk(s', me, Moved(s, r, step))
  {
  }

  lemma UnhandedTrackOk(s: Shard, s': Shard, t: Track<SequenceNumber>)
    requires TrackOk(s, t) && s.handed == {}
    ensures TrackOk(s', t)
  {
    FirstIsHanded(s, t);
  }

  lemma FirstIsHanded(s: Shard, t: Track<SequenceNumber>)
    requires TrackOk(s, t)
    ensures t.deliveries == [] || t.deliveries[0] in s.handed
  {
  }

  /** The iterator skips a record that was handed out and never settled. */
  ghost predicate Skips(s: Shard, at: nat) {
    exists q :: q in s.handed && q !in s.settled && q < at
  }

  lemma HeldFetchSkipsNothing(s: Shard, me: Instance, r: Reader, at: nat, installed: Option<StreamStart>)
    requires LogOk(s, me) && HeldOk(s, me, r) && Ready(s, r, Fetch(Iterator(at), installed))
    requires Dated(me, StartOf(r, r.phase.seen, installed), at)
    ensures !Skips(s, at)
  {
  }
}
