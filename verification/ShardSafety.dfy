/** What every run of one shard keeps, with any number of instances, crashes and stolen leases,
    when the store keeps the recorded opening. */
module ShardSafety {
  import opened Wrappers
  import opened Cursor
  import opened Tracking
  import opened Lease
  import opened ShardProtocol

  /** A reader with an iterator: where it is, and what it may rely on once its reading is recorded. */
  ghost predicate PlaceOk(s: Shard, r: Reader) {
    && (Active(r) ==> r.position <= |s.log|)
    && (r.phase.Handing? ==>
          r.position <= r.phase.upto <= |s.log| && (r.phase.last ==> s.closed && r.phase.upto == |s.log|))
    && (r.phase.Draining? || r.phase.Marking? ==> s.closed && r.position == |s.log|)
    && (r.phase.Marking? ==> Prefix(r.track) == |r.track.deliveries|)
    && (Active(r) && !r.unrecorded ==>
          && s.opening.Some? && s.opening.value <= r.position
          && Accounted(s, r.track, |r.track.deliveries|, s.opening.value, r.position))
  }

  /** What a reader saw in the row stays true after the row moved on. */
  ghost predicate SeenOk(s: Shard, r: Reader) {
    r.phase.Fetching? ==>
      && r.phase.seen.checkpoint != Some(ShardEnd)
      && (SequenceOf(r.phase.seen.checkpoint).Some? ==> Sound(s, SequenceOf(r.phase.seen.checkpoint).value))
      && (r.phase.seen.openedAt.Some? ==> s.opening == r.phase.seen.openedAt)
  }

  /** A reader whose reading is not recorded yet, as far as it knows. */
  predicate Unrecorded(r: Reader) {
    || (Active(r) && r.unrecorded)
    || (r.phase.Fetching? && r.phase.seen == LeaseState(None, None))
  }

  /** Such a reader either has lost the lease, for as long as it lives, or finds the row as it
      left it. */
  ghost predicate UnrecordedOk(s: Shard, r: Reader) {
    && (Unrecorded(r) ==> s.row.owner == Some(r.owner) ==> s.row.checkpoint.None? && s.row.openedAt.None?)
  }

  ghost predicate ReaderOk(s: Shard, r: Reader) {
    TrackOk(s, r.track) && PlaceOk(s, r) && SeenOk(s, r) && UnrecordedOk(s, r)
  }

  ghost predicate HandedOk(s: Shard) {
    && s.settled <= s.handed
    && (forall q :: q in s.handed ==> q < |s.log| && !s.log[q].aggregated)
    && (s.opening.Some? ==> forall q :: q in s.handed ==> s.opening.value <= q)
  }

  ghost predicate RecordsOk(s: Shard) {
    && HandedOk(s)
    && (s.opening.None? ==> s.handed == {})
    && (s.opening.Some? ==> s.opening.value < |s.log|)
  }

  ghost predicate RowOk(s: Shard) {
    && s.row.openedAt == s.opening
    && (SequenceOf(s.row.checkpoint).Some? ==> Sound(s, SequenceOf(s.row.checkpoint).value))
    && (s.row.checkpoint == Some(ShardEnd) ==>
          s.closed && (s.opening.Some? ==> SettledThrough(s, s.opening.value, |s.log|)))
  }

  ghost predicate OneReaderEach(s: Shard) {
    forall i, j :: 0 <= i < j < |s.readers| && Held(s.readers[i]) && Held(s.readers[j]) ==>
      s.readers[i].owner != s.readers[j].owner
  }

  ghost predicate Inv(s: Shard) {
    && s.keeps
    && RecordsOk(s)
    && RowOk(s)
    && (forall w :: w in s.writes ==> Sound(s, w.1))
    && (forall i :: 0 <= i < |s.readers| ==> ReaderOk(s, s.readers[i]))
    && OneReaderEach(s)
  }

  lemma FreshHolds(s: Shard)
    requires Fresh(s) && s.keeps
    ensures Inv(s)
  {
  }

  // ----- What survives a step -----

  /** The facts about records a step may only add to. */
  ghost predicate Grows(s: Shard, s': Shard) {
    && s.log <= s'.log
    && (s.closed ==> s'.closed && s'.log == s.log)
    && s.handed <= s'.handed
    && s.settled <= s'.settled
    && s'.opening == s.opening
  }

  lemma SoundSurvives(s: Shard, s': Shard, k: SequenceNumber)
    requires Grows(s, s') && Sound(s, k)
    ensures Sound(s', k)
  {
  }

  lemma TrackSurvives(s: Shard, s': Shard, t: Track<SequenceNumber>)
    requires Grows(s, s') && HandedOk(s) && TrackOk(s, t)
    ensures TrackOk(s', t)
  {
  }

  /** A reader a step does not touch keeps what it relies on, unless the step writes its row. */
  lemma ReaderSurvives(s: Shard, s': Shard, r: Reader)
    requires Grows(s, s') && RecordsOk(s) && ReaderOk(s, r) && UnrecordedOk(s', r)
    ensures ReaderOk(s', r)
  {
  }

  /** A step that moves one reader and leaves the row and the records alone. */
  lemma PutKeeps(s: Shard, id: nat, r: Reader)
    requires Inv(s) && id < |s.readers|
    requires ReaderOk(s, r) && r.owner == s.readers[id].owner && (Held(r) ==> Held(s.readers[id]))
    ensures Inv(Put(s, id, r))
  {
    var s' := Put(s, id, r);
    forall i | 0 <= i < |s'.readers|
      ensures ReaderOk(s', s'.readers[i])
    {
      ReaderSurvives(s, s', if i == id then r else s.readers[i]);
    }
    forall w | w in s'.writes
      ensures Sound(s', w.1)
    {
      SoundSurvives(s, s', w.1);
    }
  }

  /** A write of the row that keeps the row sound and sets neither field an unrecorded reader that
      holds the lease relies on. */
  lemma RowKeeps(s: Shard, row: Row)
    requires Inv(s) && RowOk(s.(row := row))
    requires forall i :: 0 <= i < |s.readers| ==> UnrecordedOk(s.(row := row), s.readers[i])
    ensures Inv(s.(row := row))
  {
  }

  /** Renewing and releasing touch only the holder and the expiry. */
  lemma HolderWriteKeeps(s: Shard, lands: bool, op: Op)
    requires Inv(s) && (op.Renew? || op.Release?)
    ensures Inv(Write(s, lands, op))
  {
    RowKeeps(s, Write(s, lands, op).row);
  }

  // ----- The steps of the service, the coordinators and the acknowledgements -----

  lemma AppendKeeps(s: Shard, record: Record)
    requires Inv(s) && !s.closed
    ensures Inv(s.(log := s.log + [record]))
  {
  }

  lemma CloseKeeps(s: Shard)
    requires Inv(s)
    ensures Inv(s.(closed := true))
  {
  }

  lemma TakeLeaseKeeps(s: Shard, owner: Owner, now: nat, ttl: nat)
    requires Inv(s) && NoReaderOf(s, owner)
    ensures Inv(Write(s, true, Acquire(owner, now, ttl)))
  {
  }

  lemma SpawnKeeps(s: Shard, owner: Owner, lineage: Lineage, sawEnd: set<ShardId>)
    requires Inv(s) && NoReaderOf(s, owner)
    ensures Inv(Do(s, Spawn(owner, lineage, sawEnd)))
  {
  }

  /** An acknowledgement, before any write it starts. */
  function Acknowledged(s: Shard, id: nat, index: nat): Shard
    requires id < |s.readers| && index < |s.readers[id].track.deliveries|
  {
    var r := s.readers[id];
    Put(s.(settled := s.settled + {r.track.deliveries[index]}), id, r.(track := Mark(r.track, index)))
  }

  /** The end of a settled prefix. */
  ghost predicate EndsPrefix(t: Track<SequenceNumber>, k: SequenceNumber) {
    Prefix(t) > 0 && k == t.deliveries[Prefix(t) - 1]
  }

  /** It starts one when the watermark moves, for the delivery at the end of the settled prefix. */
  lemma SettleIs(s: Shard, id: nat, index: nat) returns (k: Option<SequenceNumber>)
    requires id < |s.readers| && index < |s.readers[id].track.deliveries|
    ensures var s' := Acknowledged(s, id, index);
            && DoSettle(s, id, index)
               == (if k.None? then s' else s'.(writes := s'.writes + {(s.readers[id].owner, k.value)}))
            && (k.Some? ==> EndsPrefix(s'.readers[id].track, k.value))
  {
    k := Advanced(s.readers[id].track, Mark(s.readers[id].track, index));
  }

  lemma EndIsSound(s: Shard, t: Track<SequenceNumber>, k: SequenceNumber)
    requires HandedOk(s) && TrackOk(s, t) && EndsPrefix(t, k)
    ensures Sound(s, k) && k in s.handed
  {
    AdvanceIsSound(s, t);
  }

  lemma SettleKeeps(s: Shard, id: nat, index: nat)
    requires Inv(s) && id < |s.readers| && index < |s.readers[id].track.deliveries|
    ensures Inv(DoSettle(s, id, index))
  {
    var r := s.readers[id];
    assert ReaderOk(s, r);
    var q := r.track.deliveries[index];
    var s1 := s.(settled := s.settled + {q});
    SettledKeeps(s, q);
    assert ReaderOk(s1, s1.readers[id]);
    MarkOk(s1, r, index);
    var marked := Mark(r.track, index);
    PutKeeps(s1, id, r.(track := marked));
    var s2 := Put(s1, id, r.(track := marked));
    if Advanced(r.track, marked).Some? {
      AdvanceIsSound(s2, marked);
      WritesKeep(s2, r.owner, Advanced(r.track, marked).value);
    }
  }

  lemma MarkOk(s: Shard, r: Reader, index: nat)
    requires ReaderOk(s, r) && index < |r.track.deliveries| && r.track.deliveries[index] in s.settled
    ensures ReaderOk(s, r.(track := Mark(r.track, index)))
  {
  }

  lemma SettledKeeps(s: Shard, q: nat)
    requires Inv(s) && q in s.handed
    ensures Inv(s.(settled := s.settled + {q}))
  {
  }

  /** What the watermark answers may be stored: everything up to it has settled. */
  lemma AdvanceIsSound(s: Shard, t: Track<SequenceNumber>)
    requires HandedOk(s) && TrackOk(s, t) && Prefix(t) > 0
    ensures Sound(s, t.deliveries[Prefix(t) - 1])
  {
  }

  lemma WritesKeep(s: Shard, owner: Owner, k: SequenceNumber)
    requires Inv(s) && Sound(s, k)
    ensures Inv(s.(writes := s.writes + {(owner, k)}))
  {
  }

  lemma CrashKeeps(s: Shard, owner: Owner)
    requires Inv(s)
    ensures Inv(Do(s, Crash(owner)))
  {
    var s' := Do(s, Crash(owner));
    forall i | 0 <= i < |s.readers|
      ensures ReaderOk(s', s'.readers[i])
    {
      assert ReaderOk(s, s.readers[i]);
      ReaderSurvives(s, s', s'.readers[i]);
    }
    forall w | w in s.writes
      ensures Sound(s', w.1)
    {
      SoundSurvives(s, s', w.1);
    }
  }

  lemma ForgetKeeps(s: Shard, id: nat)
    requires Inv(s) && id < |s.readers| && s.readers[id].phase.Stopped?
    ensures Inv(DoForget(s, id))
  {
    var r := s.readers[id];
    assert ReaderOk(s, r);
    var s1 := Put(s, id, r.(phase := Forgotten));
    PutKeeps(s, id, r.(phase := Forgotten));
    var s2 := DoForget(s, id);
    assert s2 == s1.(rewinds := s2.rewinds);
    forall i | 0 <= i < |s2.readers|
      ensures ReaderOk(s2, s2.readers[i])
    {
      ReaderSurvives(s1, s2, s1.readers[i]);
    }
  }

  // ----- The steps of a reader -----

  /** The first recording: nothing was handed out before it, so nothing lies behind it. */
  lemma OpeningKeeps(s: Shard, q: SequenceNumber)
    requires Inv(s) && s.opening.None? && s.row.checkpoint.None? && q < |s.log|
    requires forall i :: 0 <= i < |s.readers| && Unrecorded(s.readers[i]) ==>
               s.row.owner != Some(s.readers[i].owner)
    ensures Inv(s.(row := s.row.(openedAt := Some(q)), opening := Some(q)))
  {
  }

  /** A reader that records holds the lease, so no other reader of its owner is left and the row
      is as it saw it. */
  lemma RecordOpeningKeeps(s: Shard, id: nat, step: ReaderStep)
    requires Inv(s) && id < |s.readers| && step.RecordOpening? && Ready(s, s.readers[id], step)
    ensures Inv(Do(s, ByReader(id, step)))
  {
    var r := s.readers[id];
    assert ReaderOk(s, r);
    var stopped := r.(rewind := RewindHere(r), phase := Stopped(RewindHere(r)));
    PutKeeps(s, id, stopped);
    if Records(s, r, step.lands) {
      var s1 := Put(s, id, stopped);
      OpeningKeeps(s1, r.position);
      var s2 := s1.(row := s1.row.(openedAt := Some(r.position)), opening := Some(r.position));
      var recorded := r.(rewind := RewindHere(r), unrecorded := false);
      assert s2.readers[id] == stopped;
      if step.heard {
        RecordedOk(s2, recorded);
        PutKeeps(s2, id, recorded);
        assert Put(s2, id, recorded) == Do(s, ByReader(id, step));
      } else {
        assert s2 == Do(s, ByReader(id, step));
      }
    }
  }

  lemma RecordedOk(s: Shard, r: Reader)
    requires s.opening == Some(r.position) && TrackOk(s, r.track)
    requires r.phase.Handing? && r.position <= r.phase.upto <= |s.log| && !r.unrecorded
    requires r.phase.last ==> s.closed && r.phase.upto == |s.log|
    ensures ReaderOk(s, r)
  {
  }

  lemma HandOutKeeps(s: Shard, id: nat)
    requires Inv(s) && id < |s.readers| && Ready(s, s.readers[id], HandOut)
    ensures Inv(Do(s, ByReader(id, HandOut)))
  {
    var r := s.readers[id];
    assert ReaderOk(s, r);
    if s.log[r.position].aggregated {
      HandedReaderOk(s, r);
      PutKeeps(s, id, Moved(s, r, HandOut));
    } else {
      var s1 := s.(handed := s.handed + {r.position});
      HandedKeeps(s, r.position);
      assert ReaderOk(s1, s1.readers[id]);
      HandedReaderOk(s1, r);
      PutKeeps(s1, id, Moved(s1, r, HandOut));
    }
  }

  lemma HandedReaderOk(s: Shard, r: Reader)
    requires ReaderOk(s, r) && Ready(s, r, HandOut)
    requires s.log[r.position].aggregated || r.position in s.handed
    ensures ReaderOk(s, Moved(s, r, HandOut))
  {
    if !s.log[r.position].aggregated {
      ExtendOk(s, r);
    }
  }

  lemma HandedKeeps(s: Shard, q: nat)
    requires Inv(s) && q < |s.log| && !s.log[q].aggregated && s.opening.Some? && s.opening.value <= q
    ensures Inv(s.(handed := s.handed + {q}))
  {
  }

  /** Registering the record at the reader's position leaves no gap behind it. */
  lemma ExtendOk(s: Shard, r: Reader)
    requires TrackOk(s, r.track) && r.position in s.handed && s.opening.Some?
    requires Accounted(s, r.track, |r.track.deliveries|, s.opening.value, r.position)
    ensures TrackOk(s, Extend(r.track, r.position))
    ensures Accounted(s, Extend(r.track, r.position), |r.track.deliveries| + 1, s.opening.value, r.position + 1)
  {
    var t, t' := r.track, Extend(r.track, r.position);
    var n := |t.deliveries|;
    assert t'.deliveries[..n] == t.deliveries[..n];
    assert t'.deliveries[..n + 1] == t'.deliveries;
    assert r.position == t'.deliveries[n];
    assert Accounted(s, t', n + 1, s.opening.value, r.position + 1);
    forall i | 0 <= i < |t'.deliveries|
      ensures Accounted(s, t', i + 1, s.opening.value, t'.deliveries[i] + 1)
    {
      if i < n {
        assert t'.deliveries[..i + 1] == t.deliveries[..i + 1];
        assert Accounted(s, t, i + 1, s.opening.value, t.deliveries[i] + 1);
      }
    }
  }

  lemma DrainedIsSettled(s: Shard, t: Track<SequenceNumber>, from: nat, to: nat)
    requires TrackOk(s, t) && Prefix(t) == |t.deliveries|
    requires Accounted(s, t, |t.deliveries|, from, to)
    ensures SettledThrough(s, from, to)
  {
  }

  /** A drained tracker at the end of the log: everything from the opening on has settled. */
  lemma MarkEndKeeps(s: Shard, id: nat, lands: bool)
    requires Inv(s) && id < |s.readers| && Ready(s, s.readers[id], MarkEnd(lands))
    ensures Inv(Do(s, ByReader(id, MarkEnd(lands))))
  {
    var r := s.readers[id];
    assert ReaderOk(s, r);
    PutKeeps(s, id, r.(phase := Releasing(None)));
    var s1 := Put(s, id, r.(phase := Releasing(None)));
    var op := SaveCheckpoint(r.owner, ShardEnd);
    if lands && Granted(s.row, op) {
      if s.opening.Some? && !r.unrecorded {
        DrainedIsSettled(s, r.track, s.opening.value, |s.log|);
      }
      RowKeeps(s1, Apply(s.row, op));
      assert Do(s, ByReader(id, MarkEnd(lands))) == s1.(row := Apply(s.row, op));
    }
  }

  /** Renewing and releasing: the row's holder and expiry, and the reader's phase. */
  lemma HolderStepKeeps(s: Shard, id: nat, step: ReaderStep)
    requires Inv(s) && id < |s.readers| && (step.RenewLease? || step.ReleaseLease?)
    requires Ready(s, s.readers[id], step)
    ensures Inv(Do(s, ByReader(id, step)))
  {
    var r := s.readers[id];
    var op := if step.RenewLease? then Renew(r.owner, step.now, step.ttl) else Release(r.owner);
    HolderWriteKeeps(s, step.lands, op);
    assert ReaderOk(Write(s, step.lands, op), r);
    PutKeeps(Write(s, step.lands, op), id, Moved(s, r, step));
  }

  lemma FetchedReaderOk(s: Shard, r: Reader, step: ReaderStep)
    requires RecordsOk(s) && RowOk(s) && ReaderOk(s, r) && Ready(s, r, step) && (step.ReadRow? || step.Fetch?)
    ensures ReaderOk(s, Moved(s, r, step))
  {
  }

  lemma WaitingReaderOk(s: Shard, r: Reader, step: ReaderStep)
    requires ReaderOk(s, r) && Ready(s, r, step) && !step.ReadRow? && !step.Fetch?
    requires !step.RecordOpening? && !step.HandOut? && !step.MarkEnd? && !step.RenewLease? && !step.ReleaseLease?
    ensures ReaderOk(s, Moved(s, r, step))
  {
  }

  /** The steps that move the reader and touch nothing else. */
  lemma LocalKeeps(s: Shard, id: nat, step: ReaderStep)
    requires Inv(s) && id < |s.readers| && Ready(s, s.readers[id], step)
    requires !step.RecordOpening? && !step.HandOut? && !step.MarkEnd? && !step.RenewLease? && !step.ReleaseLease?
    ensures Inv(Do(s, ByReader(id, step)))
  {
    var r := s.readers[id];
    assert ReaderOk(s, r);
    if step.ReadRow? || step.Fetch? {
      FetchedReaderOk(s, r, step);
    } else {
      WaitingReaderOk(s, r, step);
    }
    PutKeeps(s, id, Moved(s, r, step));
    assert DoReader(s, id, step) == Put(s, id, Moved(s, r, step));
  }

  lemma ReaderStepKeeps(s: Shard, id: nat, step: ReaderStep)
    requires Inv(s) && id < |s.readers| && Ready(s, s.readers[id], step)
    ensures Inv(Do(s, ByReader(id, step)))
  {
    match step {
      case RecordOpening(_, _) => RecordOpeningKeeps(s, id, step);
      case HandOut => HandOutKeeps(s, id);
      case MarkEnd(lands) => MarkEndKeeps(s, id, lands);
      case RenewLease(_, _, _, _) => HolderStepKeeps(s, id, step);
      case ReleaseLease(_) => HolderStepKeeps(s, id, step);
      case _ => LocalKeeps(s, id, step);
    }
  }

  /** Every step keeps the invariant. */
  lemma StepKeeps(s: Shard, a: Action)
    requires Inv(s) && Enabled(s, a)
    ensures Inv(Do(s, a))
  {
    match a {
      case Append(record) => AppendKeeps(s, record);
      case Close => CloseKeeps(s);
      case TakeLease(owner, now, ttl) => TakeLeaseKeeps(s, owner, now, ttl);
      case Spawn(owner, lineage, sawEnd) => SpawnKeeps(s, owner, lineage, sawEnd);
      case ByReader(id, step) => ReaderStepKeeps(s, id, step);
      case Forget(id) => ForgetKeeps(s, id);
      case Crash(owner) => CrashKeeps(s, owner);
      case Settle(id, index) => SettleKeeps(s, id, index);
      case LandWrite(owner, sequence) =>
        RowKeeps(s, Apply(s.row, SaveCheckpoint(owner, Sequence(sequence))));
    }
  }
}
