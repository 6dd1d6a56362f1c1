/** What acknowledgements write: over runs, exactly what the watermarks reached. */
module Checkpoints {
  import opened Wrappers
  import opened Cursor
  import opened Tracking
  import opened Lease
  import opened ShardProtocol
  import opened ShardSafety
  import opened Coordination
  import opened Readings

  /** What a watermark says is done: everything through the end of its settled prefix. */
  function Reached(t: Track<SequenceNumber>): Option<SequenceNumber> {
    if Prefix(t) == 0 then None else Some(t.deliveries[Prefix(t) - 1])
  }

  /** At some time the reader's watermark had reached it. */
  ghost predicate HadReached(r: Reader, sequence: SequenceNumber) {
    exists p :: 0 <= p < Prefix(r.track) && r.track.deliveries[p] == sequence
  }

  /** What the reader's watermark reached was sent. */
  predicate Sent(writes: set<(Owner, SequenceNumber)>, r: Reader) {
    Reached(r.track).Some? ==> (r.owner, Reached(r.track).value) in writes
  }

  /** The write is of what some reader's watermark had reached. */
  ghost predicate Justified(readers: seq<Reader>, w: (Owner, SequenceNumber)) {
    exists i :: 0 <= i < |readers| && readers[i].owner == w.0 && HadReached(readers[i], w.1)
  }

  /** What every watermark reached is on its way to the store, or has been; and nothing else is. */
  ghost predicate WritesMatch(s: Shard) {
    && (forall i :: 0 <= i < |s.readers| ==> Sent(s.writes, s.readers[i]))
    && (forall w :: w in s.writes ==> Justified(s.readers, w))
  }

  /** The reader's watermark has not gone back. */
  ghost predicate Continued(r: Reader, r': Reader) {
    r'.owner == r.owner && Prefix(r.track) <= Prefix(r'.track) && r.track.deliveries <= r'.track.deliveries
  }

  lemma StillReached(r: Reader, r': Reader, sequence: SequenceNumber)
    requires Continued(r, r') && HadReached(r, sequence)
    ensures HadReached(r', sequence)
  {
    var p :| 0 <= p < Prefix(r.track) && r.track.deliveries[p] == sequence;
    assert r'.track.deliveries[p] == sequence;
  }

  ghost predicate AllContinued(readers: seq<Reader>, readers': seq<Reader>) {
    |readers| <= |readers'| && forall i :: 0 <= i < |readers| ==> Continued(readers[i], readers'[i])
  }

  lemma StillJustified(readers: seq<Reader>, readers': seq<Reader>, w: (Owner, SequenceNumber))
    requires AllContinued(readers, readers') && Justified(readers, w)
    ensures Justified(readers', w)
  {
    var i :| 0 <= i < |readers| && readers[i].owner == w.0 && HadReached(readers[i], w.1);
    StillReached(readers[i], readers'[i], w.1);
  }

  lemma StillAllJustified(writes: set<(Owner, SequenceNumber)>, readers: seq<Reader>, readers': seq<Reader>)
    requires AllContinued(readers, readers') && forall w :: w in writes ==> Justified(readers, w)
    ensures forall w :: w in writes ==> Justified(readers', w)
  {
    forall w | w in writes
      ensures Justified(readers', w)
    {
      StillJustified(readers, readers', w);
    }
  }

  /** A reader whose settled prefix is the one it had. */
  ghost predicate Rests(r: Reader, r': Reader) {
    Continued(r, r') && Prefix(r'.track) == Prefix(r.track)
  }

  lemma StillSent(writes: set<(Owner, SequenceNumber)>, r: Reader, r': Reader)
    requires Rests(r, r') && Sent(writes, r)
    ensures Sent(writes, r')
  {
    if Prefix(r.track) > 0 {
      assert r'.track.deliveries[Prefix(r.track) - 1] == r.track.deliveries[Prefix(r.track) - 1];
    }
  }

  /** A step that writes nothing, and moves no settled prefix. */
  lemma QuietStepMatches(s: Shard, s': Shard)
    requires WritesMatch(s) && s'.writes == s.writes && |s.readers| <= |s'.readers|
    requires forall i :: 0 <= i < |s.readers| ==> Rests(s.readers[i], s'.readers[i])
    requires forall i :: |s.readers| <= i < |s'.readers| ==> s'.readers[i].track == Track([], {})
    ensures WritesMatch(s')
  {
    forall i | 0 <= i < |s'.readers|
      ensures Sent(s'.writes, s'.readers[i])
    {
      if i < |s.readers| {
        StillSent(s.writes, s.readers[i], s'.readers[i]);
      }
    }
    StillAllJustified(s.writes, s.readers, s'.readers);
  }

  lemma ReaderStepRests(s: Shard, r: Reader, step: ReaderStep)
    requires Ready(s, r, step) && WellFormed(r.track)
    ensures Rests(r, Moved(s, r, step))
    ensures Effect(s, r, step).writes == s.writes && Effect(s, r, step).readers == s.readers
  {
    if step.HandOut? {
      ExtendKeepsPrefix(r.track, r.position);
    }
  }

  lemma NewlyReached(readers: seq<Reader>, id: nat)
    requires id < |readers| && Reached(readers[id].track).Some?
    ensures Justified(readers, (readers[id].owner, Reached(readers[id].track).value))
  {
    var p := Prefix(readers[id].track) - 1;
    assert readers[id].track.deliveries[p] == Reached(readers[id].track).value;
  }

  /** One watermark moves, and what it newly reached is written. */
  lemma AdvanceMatches(s: Shard, s': Shard, id: nat, r': Reader)
    requires WritesMatch(s) && id < |s.readers| && Continued(s.readers[id], r') && s'.readers == s.readers[id := r']
    requires Reached(r'.track).Some? && s'.writes == s.writes + {(r'.owner, Reached(r'.track).value)}
    ensures WritesMatch(s')
  {
    NewlyReached(s'.readers, id);
    assert AllContinued(s.readers, s'.readers);
    StillAllJustified(s.writes, s.readers, s'.readers);
    forall i | 0 <= i < |s'.readers|
      ensures Sent(s'.writes, s'.readers[i])
    {
      assert i != id ==> Sent(s.writes, s.readers[i]);
    }
  }

  lemma SettleMatches(s: Shard, id: nat, index: nat)
    requires WritesMatch(s) && Enabled(s, Action.Settle(id, index)) && WellFormed(s.readers[id].track)
    ensures WritesMatch(DoSettle(s, id, index))
  {
    var r, s' := s.readers[id], DoSettle(s, id, index);
    var r' := r.(track := Mark(r.track, index));
    MarkGrowsPrefix(r.track, index);
    if Prefix(r.track) < Prefix(r'.track) {
      AdvanceMatches(s, s', id, r');
    } else {
      QuietStepMatches(s, s');
    }
  }

  /** What others do leaves every watermark alone. */
  lemma OthersRest(s: Shard, a: Action, i: nat)
    requires Enabled(s, a) && !a.ByReader? && !a.Settle? && i < |s.readers|
    ensures i < |Do(s, a).readers| && Rests(s.readers[i], Do(s, a).readers[i])
  {
  }

  lemma OtherActionMatches(s: Shard, a: Action)
    requires WritesMatch(s) && Enabled(s, a) && !a.ByReader? && !a.Settle?
    ensures WritesMatch(Do(s, a))
  {
    ReadersCarryOn(s, a);
    forall i | 0 <= i < |s.readers|
      ensures Rests(s.readers[i], Do(s, a).readers[i])
    {
      OthersRest(s, a, i);
    }
    QuietStepMatches(s, Do(s, a));
  }

  lemma ActionMatches(s: Shard, a: Action)
    requires Inv(s) && WritesMatch(s) && Enabled(s, a)
    ensures WritesMatch(Do(s, a))
  {
    forall i | 0 <= i < |s.readers|
      ensures WellFormed(s.readers[i].track)
    {
      assert ReaderOk(s, s.readers[i]);
    }
    if a.Settle? {
      SettleMatches(s, a.id, a.index);
    } else if a.ByReader? {
      ReaderStepRests(s, s.readers[a.id], a.step);
      QuietStepMatches(s, Do(s, a));
    } else {
      OtherActionMatches(s, a);
    }
  }

  lemma WritesGoOn(steps: seq<Step>, states: seq<System>, n: nat, id: ShardId)
    requires IsRun(steps, states) && n < |steps| && id in states[n].shards && WritesMatch(states[n].shards[id])
    ensures id in states[n + 1].shards && WritesMatch(states[n + 1].shards[id])
  {
    ShardMovesInRun(steps, states, n, id);
    var a := ActionOn(states[n], steps[n], id);
    if a.Some? {
      ActionMatches(states[n].shards[id], a.value);
    }
  }

  /** In every state of every run, of every reader there ever was: the checkpoint its watermark reached has
      been sent to the store, under its owner, and no acknowledgement sends anything else. */
  lemma {:induction false} WritesAreWhatWasReached(steps: seq<Step>, states: seq<System>, n: nat, id: ShardId)
    requires IsRun(steps, states) && n < |states| && id in states[n].shards
    ensures WritesMatch(states[n].shards[id])
    decreases n
  {
    if n > 0 {
      if id in states[n - 1].shards {
        WritesAreWhatWasReached(steps, states, n - 1, id);
        WritesGoOn(steps, states, n - 1, id);
      } else {
        NewShardIsFresh(steps, states, n - 1, id);
      }
    }
  }

  // ----- What the sets of records mean -----

  /** A reader hands the record out, which is not an aggregated one. */
  predicate HandsOut(s: Shard, a: Action, q: SequenceNumber) {
    && a.ByReader? && a.step.HandOut? && a.id < |s.readers| && s.readers[a.id].position == q
    && q < |s.log| && !s.log[q].aggregated
  }

  /** The delivery of the record is acknowledged. */
  predicate Acknowledges(s: Shard, a: Action, q: SequenceNumber) {
    && a.Settle? && a.id < |s.readers| && a.index < |s.readers[a.id].track.deliveries|
    && s.readers[a.id].track.deliveries[a.index] == q
  }

  lemma ReaderStepOfRecords(s: Shard, id: nat, step: ReaderStep, q: SequenceNumber)
    requires Enabled(s, ByReader(id, step))
    ensures q in DoReader(s, id, step).handed <==> q in s.handed || HandsOut(s, ByReader(id, step), q)
    ensures DoReader(s, id, step).settled == s.settled
  {
  }

  lemma OneStepOfRecords(s: Shard, a: Action, q: SequenceNumber)
    requires Enabled(s, a)
    ensures q in Do(s, a).handed <==> q in s.handed || HandsOut(s, a, q)
    ensures q in Do(s, a).settled <==> q in s.settled || Acknowledges(s, a, q)
  {
    if a.ByReader? {
      ReaderStepOfRecords(s, a.id, a.step, q);
    }
  }

  lemma RecordsOfShard(s: Shard, a: Option<Action>, s': Shard, q: SequenceNumber)
    requires ShardTakes(s, a, s')
    ensures q in s'.handed <==> q in s.handed || (a.Some? && HandsOut(s, a.value, q))
    ensures q in s'.settled <==> q in s.settled || (a.Some? && Acknowledges(s, a.value, q))
  {
    if a.Some? {
      OneStepOfRecords(s, a.value, q);
    }
  }

  ghost predicate HandedOutAt(sys: System, step: Step, id: ShardId, q: SequenceNumber) {
    step.OnShard? && step.id == id && id in sys.shards && HandsOut(sys.shards[id], step.action, q)
  }

  ghost predicate AcknowledgedAt(sys: System, step: Step, id: ShardId, q: SequenceNumber) {
    step.OnShard? && step.id == id && id in sys.shards && Acknowledges(sys.shards[id], step.action, q)
  }

  lemma ActsAt(sys: System, step: Step, id: ShardId, q: SequenceNumber)
    requires id in sys.shards
    ensures HandedOutAt(sys, step, id, q)
            <==> ActionOn(sys, step, id).Some? && HandsOut(sys.shards[id], ActionOn(sys, step, id).value, q)
    ensures AcknowledgedAt(sys, step, id, q)
            <==> ActionOn(sys, step, id).Some? && Acknowledges(sys.shards[id], ActionOn(sys, step, id).value, q)
  {
  }

  lemma OneStepOfRecordsInRun(steps: seq<Step>, states: seq<System>, n: nat, id: ShardId, q: SequenceNumber)
    requires IsRun(steps, states) && n < |steps| && id in states[n].shards
    ensures id in states[n + 1].shards
    ensures q in states[n + 1].shards[id].handed
            <==> q in states[n].shards[id].handed || HandedOutAt(states[n], steps[n], id, q)
    ensures q in states[n + 1].shards[id].settled
            <==> q in states[n].shards[id].settled || AcknowledgedAt(states[n], steps[n], id, q)
  {
    ShardMovesInRun(steps, states, n, id);
    RecordsOfShard(states[n].shards[id], ActionOn(states[n], steps[n], id), states[n + 1].shards[id], q);
    ActsAt(states[n], steps[n], id, q);
  }

  ghost predicate HandedOutBy(steps: seq<Step>, states: seq<System>, n: nat, id: ShardId, q: SequenceNumber)
    requires n <= |steps| < |states|
  {
    exists k {:trigger steps[k]} :: 0 <= k < n && HandedOutAt(states[k], steps[k], id, q)
  }

  ghost predicate AcknowledgedBy(steps: seq<Step>, states: seq<System>, n: nat, id: ShardId, q: SequenceNumber)
    requires n <= |steps| < |states|
  {
    exists k {:trigger steps[k]} :: 0 <= k < n && AcknowledgedAt(states[k], steps[k], id, q)
  }

  lemma OneMoreStep(steps: seq<Step>, states: seq<System>, n: nat, id: ShardId, q: SequenceNumber)
    requires n < |steps| < |states|
    ensures HandedOutBy(steps, states, n + 1, id, q)
            <==> HandedOutBy(steps, states, n, id, q) || HandedOutAt(states[n], steps[n], id, q)
    ensures AcknowledgedBy(steps, states, n + 1, id, q)
            <==> AcknowledgedBy(steps, states, n, id, q) || AcknowledgedAt(states[n], steps[n], id, q)
  {
  }

  lemma NothingBefore(steps: seq<Step>, states: seq<System>, n: nat, id: ShardId, q: SequenceNumber)
    requires IsRun(steps, states) && n < |steps| && id !in states[n].shards
    ensures !HandedOutBy(steps, states, n + 1, id, q) && !AcknowledgedBy(steps, states, n + 1, id, q)
  {
    NotThereBefore(steps, states, n, id);
  }

  /** Over every run the records said to be handed out are those that some reader's step handed out, and
      those said to have settled are those whose delivery was acknowledged. */
  lemma {:induction false} RecordsAreWhatHappened(steps: seq<Step>, states: seq<System>, n: nat, id: ShardId,
                                                  q: SequenceNumber)
    requires IsRun(steps, states) && n < |states| && id in states[n].shards
    ensures q in states[n].shards[id].handed <==> HandedOutBy(steps, states, n, id, q)
    ensures q in states[n].shards[id].settled <==> AcknowledgedBy(steps, states, n, id, q)
    decreases n
  {
    if n > 0 {
      if id in states[n - 1].shards {
        RecordsAreWhatHappened(steps, states, n - 1, id, q);
        OneStepOfRecordsInRun(steps, states, n - 1, id, q);
        OneMoreStep(steps, states, n - 1, id, q);
      } else {
        NewShardIsFresh(steps, states, n - 1, id);
        NothingBefore(steps, states, n - 1, id, q);
      }
    }
  }

  /** A shard never goes away. */
  lemma {:induction false} NotThereBefore(steps: seq<Step>, states: seq<System>, n: nat, id: ShardId)
    requires IsRun(steps, states) && n < |states| && id !in states[n].shards
    ensures forall k :: 0 <= k <= n ==> id !in states[k].shards
  {
    if n > 0 {
      if id in states[n - 1].shards {
        ShardMovesInRun(steps, states, n - 1, id);
      }
      NotThereBefore(steps, states, n - 1, id);
    }
  }
}
