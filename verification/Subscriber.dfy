/** The pieces of a subscription's tasks that run between two awaits, or over answers they waited
    for, as the loops they are: checking a shard's parents, forgetting finished readers, handing a
    batch out, applying a seek, and broadcasting one. Each is tied to the protocol steps it makes. */
module Subscriber {
  import opened Wrappers
  import opened Cursor
  import opened Tracking
  import opened Lease
  import opened ShardProtocol
  import opened Coordination

  // ----- Parents -----

  datatype Parents = Pending | Consumed | Skipped

  /** A parent as the pass finds it: its listing, if it is still listed, and its row, if that could
      be read. */
  datatype Parent = Parent(id: ShardId, listed: bool, closed: bool, row: Option<LeaseState>)

  predicate AtTip(installed: Option<StreamStart>) {
    installed.None? || installed.value.Latest?
  }

  /** A listed parent the child waits for. */
  predicate HoldsBack(p: Parent, installed: Option<StreamStart>) {
    && p.listed
    && (p.row.None?
        || (p.row.value.checkpoint != Some(ShardEnd)
            && !(p.row.value.checkpoint.None? && p.closed && AtTip(installed))))
  }

  predicate WasConsumed(p: Parent) {
    p.listed && p.row.Some? && p.row.value.checkpoint == Some(ShardEnd)
  }

  method CheckParents(parents: seq<Parent>, installed: Option<StreamStart>) returns (outcome: Parents)
    ensures outcome == Pending <==> exists i :: 0 <= i < |parents| && HoldsBack(parents[i], installed)
    ensures outcome == Consumed <==>
              && (forall i :: 0 <= i < |parents| ==> !HoldsBack(parents[i], installed))
              && (exists i :: 0 <= i < |parents| && WasConsumed(parents[i]))
  {
    outcome := Skipped;
    for i := 0 to |parents|
      invariant outcome != Pending
      invariant forall j :: 0 <= j < i ==> !HoldsBack(parents[j], installed)
      invariant outcome == Consumed <==> exists j :: 0 <= j < i && WasConsumed(parents[j])
    {
      var p := parents[i];
      if !p.listed {
        continue;
      }
      if p.row.None? {
        assert HoldsBack(p, installed);
        return Pending;
      }
      match p.row.value.checkpoint {
        case Some(ShardEnd) =>
          assert WasConsumed(parents[i]);
          outcome := Consumed;
        case None =>
          if !(p.closed && AtTip(installed)) {
            assert HoldsBack(p, installed);
            return Pending;
          }
        case Some(Sequence(_)) =>
          assert HoldsBack(p, installed);
          return Pending;
      }
    }
  }

  /** The coordinator's step on its next parent, as the pass finds that parent. */
  function StepFor(owner: Owner, p: Parent, installed: Option<StreamStart>): Step {
    CheckParent(owner, p.listed, p.closed, p.row.Some?, installed)
  }

  /** The pass finds the parents as they are. */
  ghost predicate FoundIn(sys: System, parents: seq<Parent>) {
    forall i :: 0 <= i < |parents| && parents[i].listed ==>
      && parents[i].id in sys.shards && (parents[i].closed ==> sys.shards[parents[i].id].closed)
      && (parents[i].row.Some? ==> parents[i].row.value == StateOf(sys.shards[parents[i].id].row))
  }

  /** The coordinator's steps over all the parents left. */
  ghost function CheckAll(sys: System, owner: Owner, parents: seq<Parent>, installed: Option<StreamStart>)
    : (after: System)
    requires FoundIn(sys, parents)
    requires owner in sys.coordinators && sys.coordinators[owner].Checking?
    requires sys.coordinators[owner].todo == seq(|parents|, i requires 0 <= i < |parents| => parents[i].id)
    ensures owner in after.coordinators
    decreases |parents|
  {
    if parents == [] then sys
    else
      var next := Next(sys, StepFor(owner, parents[0], installed));
      if next.coordinators[owner].Idle? then next else CheckAll(next, owner, parents[1..], installed)
  }

  lemma CheckStep(sys: System, owner: Owner, parents: seq<Parent>, installed: Option<StreamStart>)
    requires parents != [] && FoundIn(sys, parents)
    requires owner in sys.coordinators && sys.coordinators[owner].Checking?
    requires sys.coordinators[owner].todo != [] && sys.coordinators[owner].todo[0] == parents[0].id
    ensures var step, c := StepFor(owner, parents[0], installed), sys.coordinators[owner];
            && Possible(sys, step)
            && Next(sys, step)
               == Set(sys, owner,
                      if HoldsBack(parents[0], installed) then Idle
                      else c.(todo := c.todo[1..],
                              sawEnd := if WasConsumed(parents[0]) then c.sawEnd + {parents[0].id} else c.sawEnd))
  {
  }

  /** The check over a whole list, whose outcome `CheckParents` computes, is the coordinator's steps
      one parent after the other: the pass stops on a parent that holds the child back, and
      otherwise remembers exactly the parents that were consumed. */
  lemma {:induction false} ChecksAreSteps(sys: System, owner: Owner, parents: seq<Parent>, installed: Option<StreamStart>)
    requires FoundIn(sys, parents)
    requires owner in sys.coordinators && sys.coordinators[owner].Checking?
    requires sys.coordinators[owner].todo == seq(|parents|, i requires 0 <= i < |parents| => parents[i].id)
    ensures var c, c' := sys.coordinators[owner], CheckAll(sys, owner, parents, installed).coordinators[owner];
            && (c'.Idle? <==> exists i :: 0 <= i < |parents| && HoldsBack(parents[i], installed))
            && (!c'.Idle? ==>
                  && c'.Checking? && c'.shard == c.shard && c'.todo == []
                  && forall p :: p in c'.sawEnd <==>
                       p in c.sawEnd || exists i :: 0 <= i < |parents| && WasConsumed(parents[i]) && parents[i].id == p)
    decreases |parents|
  {
    if parents != [] {
      var c := sys.coordinators[owner];
      assert c.todo[0] == parents[0].id;
      CheckStep(sys, owner, parents, installed);
      var next := Next(sys, StepFor(owner, parents[0], installed));
      if !HoldsBack(parents[0], installed) {
        var rest := parents[1..];
        assert forall i :: 0 <= i < |rest| ==> rest[i] == parents[i + 1];
        assert c.todo[1..] == seq(|rest|, i requires 0 <= i < |rest| => rest[i].id);
        ChecksAreSteps(next, owner, rest, installed);
        assert forall i :: 0 < i < |parents| ==> parents[i] == rest[i - 1];
      }
    }
  }

  // ----- Finished readers -----

  /** A reader task as its handle shows it. */
  datatype Task = Running | Finished(handOff: Option<ShardStart>) | Panicked

  /** What one instance's coordinator keeps between its passes. */
  class ReaderTable {
    var readers: map<ShardId, Task>
    var rewinds: map<ShardId, ShardStart>

    constructor ()
      ensures readers == map[] && rewinds == map[]
    {
      readers, rewinds := map[], map[];
    }

    /** Drops the readers that stopped. A hand-off replaces the one kept before; a reader that
        hands nothing on leaves that one in place. */
    method ForgetFinished()
      modifies this
      ensures forall id :: id in readers <==> id in old(readers) && old(readers)[id].Running?
      ensures forall id :: id in readers ==> readers[id].Running?
      ensures forall id :: id in rewinds <==> id in old(rewinds) || HandsOn(old(readers), id)
      ensures forall id :: id in rewinds ==>
                rewinds[id] == if HandsOn(old(readers), id) then old(readers)[id].handOff.value else old(rewinds)[id]
    {
      var todo := readers.Keys;
      var before := readers;
      while todo != {}
        invariant todo <= before.Keys
        invariant forall id :: id in readers <==> id in before && (id in todo || before[id].Running?)
        invariant forall id :: id in readers ==> readers[id] == before[id]
        invariant forall id :: id in rewinds <==> id in old(rewinds) || (id !in todo && HandsOn(before, id))
        invariant forall id :: id in rewinds ==>
                    rewinds[id] == if id !in todo && HandsOn(before, id) then before[id].handOff.value
                                   else old(rewinds)[id]
        decreases |todo|
      {
        var id :| id in todo;
        todo := todo - {id};
        match before[id] {
          case Running =>
          case Finished(Some(start)) =>
            rewinds := rewinds[id := start];
            readers := readers - {id};
          case _ => readers := readers - {id};
        }
      }
    }
  }

  predicate HandsOn(readers: map<ShardId, Task>, id: ShardId) {
    id in readers && readers[id].Finished? && readers[id].handOff.Some?
  }

  // ----- Reading a batch -----

  /** The records of a range that are handed out: all but the aggregated ones. */
  function Tracked(log: seq<Record>, from: nat, to: nat): seq<SequenceNumber>
    requires from <= to <= |log|
    decreases |log| - from
  {
    if from == to then []
    else (if log[from].aggregated then [] else [from]) + Tracked(log, from + 1, to)
  }

  function SetOf(sequences: seq<SequenceNumber>): set<SequenceNumber> {
    set q | q in sequences
  }

  lemma {:induction false} TrackedNext(log: seq<Record>, from: nat, to: nat)
    requires from <= to < |log|
    ensures Tracked(log, from, to + 1) == Tracked(log, from, to) + if log[to].aggregated then [] else [to]
    decreases |log| - from
  {
    if from < to {
      TrackedNext(log, from + 1, to);
    }
  }

  /** A reader that handed out everything it read. */
  function HandedOut(r: Reader, log: seq<Record>, upto: nat): Reader
    requires r.position <= upto <= |log|
  {
    if r.position == upto then r
    else
      r.(position := upto, rewind := RewindHere(r), unrecorded := false,
         track := r.track.(deliveries := r.track.deliveries + Tracked(log, r.position, upto)))
  }

  /** A reader that handed one record out. */
  function AfterRecord(r: Reader, record: Record, sequence: SequenceNumber): Reader {
    r.(position := sequence + 1, rewind := RewindHere(r), unrecorded := false,
       track := if record.aggregated then r.track else Extend(r.track, sequence))
  }

  lemma HandedOutNext(r: Reader, log: seq<Record>, k: nat)
    requires r.position <= k < |log|
    ensures var h := HandedOut(r, log, k);
            && h.position == k && h.sawEnd == r.sawEnd && h.phase == r.phase
            && h.unrecorded == (k == r.position && r.unrecorded)
            && HandedOut(r, log, k + 1) == AfterRecord(h, log[k], k)
            && (k == r.position ==> h == r)
  {
    TrackedNext(log, r.position, k);
    assert Tracked(log, r.position, r.position) == [];
    assert r.track.deliveries + [] == r.track.deliveries;
    var more := if log[k].aggregated then [] else [k];
    assert r.track.deliveries + (Tracked(log, r.position, k) + more)
        == r.track.deliveries + Tracked(log, r.position, k) + more;
  }

  /** The protocol's steps over a batch, nothing in between: one that records the opening when there
      is one to record, and one per record. */
  function PlayBatch(s: Shard, id: nat): Shard
    requires id < |s.readers| && s.readers[id].phase.Handing?
    requires s.readers[id].position <= s.readers[id].phase.upto <= |s.log|
    decreases |s.log| - s.readers[id].position, s.readers[id].unrecorded
  {
    var r := s.readers[id];
    if r.position == r.phase.upto then s
    else if !r.unrecorded then PlayBatch(DoReader(s, id, ReaderStep.HandOut), id)
    else
      var s' := DoReader(s, id, RecordOpening(true, true));
      if s'.readers[id].phase.Handing? then PlayBatch(s', id) else s'
  }

  /** One hand-out takes one record off what is left. */
  lemma HandOutNext(s: Shard, r: Reader)
    requires Ready(s, r, ReaderStep.HandOut) && r.phase.upto <= |s.log|
    ensures var r' := Moved(s, r, ReaderStep.HandOut);
            && r'.phase == r.phase && !r'.unrecorded && r'.position == r.position + 1
            && HandedOut(r', s.log, r.phase.upto) == HandedOut(r, s.log, r.phase.upto)
    ensures var s' := Effect(s, r, ReaderStep.HandOut);
            && s' == s.(handed := s'.handed)
            && s'.handed + SetOf(Tracked(s.log, r.position + 1, r.phase.upto))
               == s.handed + SetOf(Tracked(s.log, r.position, r.phase.upto))
  {
    var r' := Moved(s, r, ReaderStep.HandOut);
    var rest := Tracked(s.log, r.position + 1, r.phase.upto);
    assert r'.track.deliveries + rest == r.track.deliveries + Tracked(s.log, r.position, r.phase.upto);
  }

  /** No reader but `id` changed. */
  ghost predicate OnlyMoved(s: Shard, s': Shard, id: nat) {
    && |s'.readers| == |s.readers| && id < |s.readers|
    && forall i :: 0 <= i < |s.readers| && i != id ==> s'.readers[i] == s.readers[i]
  }

  /** From `s` to `s'` the reader handed out all that was left of its batch. */
  ghost predicate BatchDone(s: Shard, s': Shard, id: nat)
    requires id < |s.readers| && s.readers[id].phase.Handing?
    requires s.readers[id].position <= s.readers[id].phase.upto <= |s.log|
  {
    var r := s.readers[id];
    && OnlyMoved(s, s', id) && s'.row == s.row
    && s'.readers[id] == HandedOut(r, s.log, r.phase.upto)
    && s'.handed == s.handed + SetOf(Tracked(s.log, r.position, r.phase.upto))
  }

  lemma BatchGoesOn(s: Shard, s': Shard, id: nat)
    requires id < |s.readers| && Ready(s, s.readers[id], ReaderStep.HandOut) && s.readers[id].phase.upto <= |s.log|
    requires BatchDone(DoReader(s, id, ReaderStep.HandOut), s', id)
    ensures BatchDone(s, s', id)
  {
    HandOutNext(s, s.readers[id]);
  }

  /** Once its reading is recorded, a reader hands the batch out as a whole. */
  lemma {:induction false} RecordedBatch(s: Shard, id: nat)
    requires id < |s.readers| && s.readers[id].phase.Handing? && !s.readers[id].unrecorded
    requires s.readers[id].position <= s.readers[id].phase.upto <= |s.log|
    ensures BatchDone(s, PlayBatch(s, id), id)
    decreases |s.log| - s.readers[id].position
  {
    var r := s.readers[id];
    if r.position < r.phase.upto {
      RecordedBatch(DoReader(s, id, ReaderStep.HandOut), id);
      BatchGoesOn(s, PlayBatch(s, id), id);
    } else {
      assert s.handed + SetOf(Tracked(s.log, r.position, r.phase.upto)) == s.handed;
    }
  }

  /** The row once `n` records of the batch are handed out. */
  function Recorded(row: Row, r: Reader, n: nat): Row {
    if n > 0 && r.unrecorded then row.(openedAt := Some(r.position)) else row
  }

  lemma OpeningRecorded(s: Shard, id: nat)
    requires s.keeps && id < |s.readers| && Ready(s, s.readers[id], RecordOpening(true, true))
    requires s.row.owner == Some(s.readers[id].owner)
    ensures var r := s.readers[id];
            DoReader(s, id, RecordOpening(true, true))
            == s.(row := s.row.(openedAt := Some(r.position)),
                  opening := if s.opening.None? then Some(r.position) else s.opening,
                  readers := s.readers[id := r.(rewind := RewindHere(r), unrecorded := false)])
  {
  }

  /** A batch as a whole: an owner that no longer holds the lease when its reading is to be recorded
      stops with nothing handed out and hands on the place it is at; every other one hands out all
      of it, and the row then says where the reading opened. */
  lemma BatchAsAWhole(s: Shard, id: nat)
    requires s.keeps && id < |s.readers| && s.readers[id].phase.Handing?
    requires s.readers[id].position < s.readers[id].phase.upto <= |s.log|
    ensures var r, s' := s.readers[id], PlayBatch(s, id);
            if r.unrecorded && s.row.owner != Some(r.owner) then
              s' == Put(s, id, r.(rewind := RewindHere(r), phase := Stopped(RewindHere(r))))
            else
              && OnlyMoved(s, s', id)
              && s'.readers[id] == HandedOut(r, s.log, r.phase.upto)
              && s'.row == Recorded(s.row, r, r.phase.upto - r.position)
              && s'.handed == s.handed + SetOf(Tracked(s.log, r.position, r.phase.upto))
  {
    var r := s.readers[id];
    if !r.unrecorded {
      RecordedBatch(s, id);
    } else if s.row.owner == Some(r.owner) {
      OpeningRecorded(s, id);
      var s1 := DoReader(s, id, RecordOpening(true, true));
      assert PlayBatch(s, id) == PlayBatch(s1, id);
      RecordedBatch(s1, id);
    }
  }

  /** How handing a batch out ends. */
  datatype BatchEnd = Done | Fenced | ChannelClosed(released: bool)

  /** How many of `count` records are handed out when the channel takes `room` of them. */
  function Sent(end: BatchEnd, count: nat, room: nat): nat {
    match end
    case Done => count
    case Fenced => 0
    case ChannelClosed(_) => room + 1
  }

  /** A reader task's own variables. */
  class ShardReader {
    const owner: Owner
    const lease: LeaseKey
    const lineage: Lineage
    var position: nat
    var rewind: Option<ShardStart>
    var unrecorded: bool
    var tracker: Watermark<SequenceNumber>

    constructor (owner: Owner, lease: LeaseKey, lineage: Lineage, rewind: Option<ShardStart>)
      ensures this.owner == owner && this.lease == lease && this.lineage == lineage
      ensures this.rewind == rewind && !unrecorded && fresh(tracker)
      ensures tracker.Valid() && tracker.track == Track([], {})
    {
      this.owner, this.lease, this.lineage := owner, lease, lineage;
      this.position, this.rewind, this.unrecorded := 0, rewind, false;
      this.tracker := new Watermark();
    }

    /** The reader as the protocol sees it. */
    ghost function Value(sawEnd: set<ShardId>, phase: Phase): Reader
      reads this, tracker
    {
      Reader(owner, lineage, sawEnd, position, rewind, unrecorded, tracker.track, phase)
    }

    /** Fetches a cursor from scratch: when the reader starts, and when it lost its iterator. `seen`
        is the row, if it could be read, and `answer` what the service says to the request for an
        iterator. Answers `None` for a shard that is already finished, and when the service answers
        without an iterator: the reader then stops, with nothing to hand on. */
    method InitialIterator(seen: Option<LeaseState>, installed: Option<StreamStart>, answer: FetchAnswer,
                           ghost s: Shard, ghost sawEnd: set<ShardId>, ghost again: bool)
      returns (r: Result<Option<nat>, ()>)
      requires seen.Some? ==> seen.value == StateOf(s.row)
      requires seen.Some? && seen.value.checkpoint != Some(ShardEnd) && answer.Iterator? ==>
                 Names(StartOf(Value(sawEnd, Opening(again)), seen.value, installed), |s.log|, answer.at)
      modifies this
      ensures tracker == old(tracker)
      ensures r.Failure? <==> seen.None? || (seen.value.checkpoint != Some(ShardEnd) && answer.NoAnswer?)
      ensures r == Success(None) <==> seen.Some? && (seen.value.checkpoint == Some(ShardEnd) || answer.NoIterator?)
      ensures r.Success? && seen.value.checkpoint != Some(ShardEnd) ==>
                && r.value == (if answer.Iterator? then Some(answer.at) else None)
                && Value(sawEnd, if answer.Iterator? then Reading else Stopped(None))
                   == Moved(s, Moved(s, old(Value(sawEnd, Opening(again))), ReadRow(true)), Fetch(answer, installed))
      ensures r.Failure? || seen.value.checkpoint == Some(ShardEnd) ==>
                Value(sawEnd, Reading) == old(Value(sawEnd, Reading))
      ensures r.Success? && r.value.Some? ==>
                && StartsRightly(seen.value, old(rewind), lineage, installed, |s.log|, position)
                && (unrecorded <==> seen.value.checkpoint.None? && seen.value.openedAt.None?)
                && r.value == Some(position)
    {
      if seen.None? {
        return Failure(());
      }
      var state := seen.value;
      if state.checkpoint == Some(ShardEnd) {
        return Success(None);
      }
      var recorded := state.checkpoint.Some? || state.openedAt.Some?;
      var start := ReopenAt(SequenceOf(state.checkpoint), state.openedAt, rewind, lineage, installed);
      if answer.NoAnswer? {
        return Failure(());
      }
      if answer.Iterator? {
        ReopenedStartsRightly(state, rewind, lineage, installed, |s.log|, answer.at);
      }
      rewind := RewindTo(start);
      unrecorded := !recorded;
      if answer.NoIterator? {
        return Success(None);
      }
      position := answer.at;
      return Success(Some(answer.at));
    }

    /** Records where a reading starts, if that is still to be done, and keeps it for the next reader
        in any case. */
    method RecordReading(store: MemoryLeaseStore) returns (fenced: bool)
      modifies this, store
      ensures tracker == old(tracker) && position == old(position)
      ensures fenced <==> old(unrecorded) && old(store.RowOf(lease)).owner != Some(owner)
      ensures rewind == if old(rewind).None? then Some(At(position)) else old(rewind)
      ensures unrecorded <==> fenced
      ensures store.RowOf(lease)
              == if old(unrecorded) && !fenced then old(store.RowOf(lease)).(openedAt := Some(position))
                 else old(store.RowOf(lease))
      ensures store.OthersUnchanged(lease, old(store.leases))
    {
      if rewind.None? {
        rewind := Some(At(position));
      }
      fenced := false;
      if unrecorded {
        var held := store.RecordOpenedAt(lease, owner, position);
        unrecorded, fenced := !held, !held;
      }
    }

    /** Hands out one record. The first record of a reading is recorded in the row before it is
        handed out; an owner that has lost the lease stops there. */
    method HandOutRecord(record: Record, store: MemoryLeaseStore, ghost r: Reader) returns (fenced: bool)
      requires tracker.Valid() && r == Value(r.sawEnd, r.phase)
      modifies this, tracker, store
      ensures tracker == old(tracker) && tracker.Valid()
      ensures fenced <==> r.unrecorded && old(store.RowOf(lease)).owner != Some(owner)
      ensures Value(r.sawEnd, r.phase)
              == if fenced then r.(rewind := RewindHere(r)) else AfterRecord(r, record, r.position)
      ensures store.RowOf(lease)
              == if r.unrecorded && !fenced then old(store.RowOf(lease)).(openedAt := Some(r.position))
                 else old(store.RowOf(lease))
      ensures store.OthersUnchanged(lease, old(store.leases))
    {
      fenced := RecordReading(store);
      if fenced {
        return;
      }
      if !record.aggregated {
        var _ := tracker.Deliver(position);
      }
      position := position + 1;
    }

    /** The reader, at `r` with its row at `row` before, has handed out `n` records of a batch. */
    ghost predicate HasHandedOut(store: MemoryLeaseStore, log: seq<Record>, row: Row, r: Reader, n: nat)
      reads this, tracker, store
      requires r.position + n <= |log|
    {
      && tracker.Valid()
      && Value(r.sawEnd, r.phase) == HandedOut(r, log, r.position + n)
      && store.RowOf(lease) == Recorded(row, r, n)
      && (n > 0 && r.unrecorded ==> row.owner == Some(owner))
    }

    /** Hands out the next record of a batch, or is fenced before the first. */
    method HandOutNth(record: Record, store: MemoryLeaseStore, ghost log: seq<Record>, ghost n: nat,
                      ghost row: Row, ghost r: Reader)
      returns (fenced: bool)
      requires r.position + n < |log| && record == log[r.position + n]
      requires HasHandedOut(store, log, row, r, n)
      modifies this, tracker, store
      ensures tracker == old(tracker)
      ensures fenced <==> n == 0 && r.unrecorded && row.owner != Some(owner)
      ensures fenced ==>
                && tracker.Valid() && Value(r.sawEnd, r.phase) == r.(rewind := RewindHere(r))
                && store.RowOf(lease) == row
      ensures !fenced ==> HasHandedOut(store, log, row, r, n + 1)
      ensures store.OthersUnchanged(lease, old(store.leases))
    {
      ghost var h := Value(r.sawEnd, r.phase);
      HandedOutNext(r, log, r.position + n);
      fenced := HandOutRecord(record, store, h);
    }

    /** Hands records out one after the other, until one is fenced. */
    method HandOutAll(records: seq<Record>, store: MemoryLeaseStore, ghost log: seq<Record>, ghost row: Row,
                      ghost r: Reader)
      returns (fenced: bool)
      requires r.position + |records| <= |log|
      requires forall i :: 0 <= i < |records| ==> records[i] == log[r.position + i]
      requires HasHandedOut(store, log, row, r, 0)
      modifies this, tracker, store
      ensures tracker == old(tracker)
      ensures fenced <==> records != [] && r.unrecorded && row.owner != Some(owner)
      ensures fenced ==>
                && tracker.Valid() && Value(r.sawEnd, r.phase) == r.(rewind := RewindHere(r))
                && store.RowOf(lease) == row
      ensures !fenced ==> HasHandedOut(store, log, row, r, |records|)
      ensures store.OthersUnchanged(lease, old(store.leases))
    {
      fenced := false;
      for i := 0 to |records|
        invariant tracker == old(tracker)
        invariant HasHandedOut(store, log, row, r, i)
        invariant store.OthersUnchanged(lease, old(store.leases))
      {
        fenced := HandOutNth(records[i], store, log, i, row, r);
        if fenced {
          return;
        }
      }
    }

    /** Hands out what one read returned, as `BatchAsAWhole` says the protocol's steps do. `room` is
        how many sends the channel takes before its receiver is dropped; the send that fails is of a
        record already on the watermark, and the lease is released unless it only reported an
        aggregated record. `r` is the reader before, `row` its row and `log` its shard's log. */
    method HandOutBatch(records: seq<Record>, store: MemoryLeaseStore, room: nat, ghost log: seq<Record>,
                        ghost row: Row, ghost r: Reader)
      returns (end: BatchEnd)
      requires tracker.Valid() && r == Value(r.sawEnd, r.phase) && row == store.RowOf(lease)
      requires r.position + |records| <= |log|
      requires forall i :: 0 <= i < |records| ==> records[i] == log[r.position + i]
      modifies this, tracker, store
      ensures tracker == old(tracker) && tracker.Valid()
      ensures end.Fenced? <==> records != [] && r.unrecorded && row.owner != Some(owner)
      ensures end.Done? <==> !end.Fenced? && |records| <= room
      ensures end.ChannelClosed? ==> room < |records| && (end.released <==> !records[room].aggregated)
      ensures position == r.position + (if end.Done? then |records| else if end.Fenced? then 0 else room + 1)
      ensures Value(r.sawEnd, r.phase)
              == if end.Fenced? then r.(rewind := RewindHere(r))
                 else HandedOut(r, log, r.position + Sent(end, |records|, room))
      ensures store.RowOf(lease)
              == var recorded := Recorded(row, r, Sent(end, |records|, room));
                 if end == ChannelClosed(true) then Apply(recorded, Op.Release(owner)) else recorded
      ensures store.OthersUnchanged(lease, old(store.leases))
    {
      var count := if |records| <= room then |records| else room + 1;
      var fenced := HandOutAll(records[..count], store, log, row, r);
      if fenced {
        return Fenced;
      }
      if |records| <= room {
        return Done;
      }
      if !records[room].aggregated {
        store.Release(lease, owner);
      }
      return ChannelClosed(!records[room].aggregated);
    }

    /** Applies a seek. `at` is where the service put the iterator, if it answered one. A failed
        seek leaves everything as it was; a successful one starts a reading of its own, on a
        watermark of its own, so that nothing handed out before it can move the checkpoint. */
    method ApplySeek(start: ShardStart, at: Option<nat>) returns (moved: bool)
      modifies this
      ensures moved == at.Some?
      ensures !moved ==>
                tracker == old(tracker) && position == old(position) && rewind == old(rewind)
                && unrecorded == old(unrecorded)
      ensures moved ==>
                && fresh(tracker) && tracker.Valid() && tracker.track == Track([], {})
                && Some(position) == at && unrecorded && rewind == RewindTo(start)
    {
      moved := at.Some?;
      if moved {
        position := at.value;
        tracker := new Watermark();
        rewind := RewindTo(start);
        unrecorded := true;
      }
    }
  }

  // ----- The seek surface -----

  /** One shard's live seek surface. `open` is whether its reader still listens. */
  class ShardHandle {
    var gate: nat
    var commands: seq<ShardStart>
    var open: bool

    constructor ()
      ensures gate == 0 && commands == [] && open
    {
      gate, commands, open := 0, [], true;
    }

    method Send(start: ShardStart) returns (sent: bool)
      modifies this`commands
      ensures sent == open
      ensures commands == if open then old(commands) + [start] else old(commands)
    {
      sent := open;
      if open {
        commands := commands + [start];
      }
    }
  }

  /** Why a seek fails; `Refused` is the service's error, which the reader passes on. */
  datatype SeekError = NoLiveReader | ReaderShutDown | Refused

  /** What a reader answers a command with: nothing, if it shuts down first. */
  type Reply = Option<Result<(), SeekError>>

  /** What a seek does, in the order it does it. */
  datatype SeekEvent = Installs | Bumps(handle: ShardHandle) | Sends(handle: ShardHandle)

  /** The subscription's seek surface, shared by the seeker, the coordinator and every reader. */
  class SeekState {
    var shards: map<ShardId, ShardHandle>
    var start: Option<StreamStart>

    constructor ()
      ensures shards == map[] && start == None
    {
      shards, start := map[], None;
    }

    method Register(shard: ShardId, handle: ShardHandle)
      modifies this
      ensures shards == old(shards)[shard := handle] && start == old(start)
    {
      shards := shards[shard := handle];
    }

    method Deregister(shard: ShardId)
      modifies this
      ensures shards == old(shards) - {shard} && start == old(start)
    {
      shards := shards - {shard};
    }

    /** Repositions one shard: the generation moves before the command is sent, and stays moved when
        the reader turns out to be gone or cannot apply it. `reply` is the reader's, once it has the
        command. */
    method SeekShard(shard: ShardId, to: ShardStart, reply: Reply) returns (r: Result<(), SeekError>)
      modifies shards.Values
      ensures r == if shard !in shards then Failure(NoLiveReader)
                   else if !old(shards[shard].open) || reply.None? then Failure(ReaderShutDown)
                   else reply.value
      ensures forall id :: id in shards ==>
                var handle := shards[id];
                && handle.gate == old(handle.gate) + (if shard in shards && handle == shards[shard] then 1 else 0)
                && handle.commands
                   == old(handle.commands)
                      + (if shard in shards && handle == shards[shard] && handle.open then [to] else [])
                && handle.open == old(handle.open)
    {
      if shard !in shards {
        return Failure(NoLiveReader);
      }
      var handle := shards[shard];
      assert handle in shards.Values;
      handle.gate := handle.gate + 1;
      var sent := handle.Send(to);
      if !sent || reply.None? {
        return Failure(ReaderShutDown);
      }
      return reply.value;
    }

    /** Moves the generation of every live reader. */
    method BumpAll() returns (ghost bumps: seq<SeekEvent>)
      modifies shards.Values
      ensures forall h :: h in shards.Values ==>
                h.gate == old(h.gate) + 1 && h.open == old(h.open) && h.commands == old(h.commands)
      ensures AllBumps(bumps)
    {
      var todo := shards.Values;
      bumps := [];
      while todo != {}
        invariant todo <= shards.Values
        invariant forall h :: h in shards.Values ==>
                    h.gate == old(h.gate) + (if h in todo then 0 else 1)
                    && h.open == old(h.open) && h.commands == old(h.commands)
        invariant AllBumps(bumps)
        decreases |todo|
      {
        var h :| h in todo;
        todo := todo - {h};
        h.gate := h.gate + 1;
        bumps := bumps + [Bumps(h)];
      }
    }

    /** Sends a command to every reader still listening; answers whom it reached. */
    method SendAll(to: ShardStart) returns (waits: seq<ShardHandle>, ghost sends: seq<SeekEvent>)
      modifies shards.Values`commands
      ensures forall h :: h in waits <==> h in shards.Values && h.open
      ensures forall h :: h in shards.Values ==>
                h.commands == old(h.commands) + (if h.open then [to] else [])
      ensures AllSends(sends)
    {
      var todo := shards.Values;
      waits, sends := [], [];
      while todo != {}
        invariant todo <= shards.Values
        invariant forall h :: h in waits <==> h in shards.Values && h !in todo && h.open
        invariant forall h :: h in shards.Values ==>
                    h.commands == old(h.commands) + (if h.open && h !in todo then [to] else [])
        invariant AllSends(sends)
        decreases |todo|
      {
        var h :| h in todo;
        todo := todo - {h};
        var sent := h.Send(to);
        sends := sends + [Sends(h)];
        waits := if sent then waits + [h] else waits;
      }
    }

    /** Repositions every shard: installs the position for readers to come, then moves every live
        generation, then sends to every reader still listening, and waits for those. `replies` are
        what they answer; the first refusal is the seek's error, and a reader that shuts down without
        an answer is none. */
    method SeekStream(to: StreamStart, replies: map<ShardHandle, Reply>)
      returns (r: Result<(), SeekError>, ghost waits: seq<ShardHandle>, ghost events: seq<SeekEvent>)
      modifies this`start, shards.Values
      ensures start == Some(to)
      ensures forall h :: h in waits <==> h in shards.Values && h.open
      ensures forall h :: h in shards.Values ==>
                && h.gate == old(h.gate) + 1 && h.open == old(h.open)
                && h.commands == old(h.commands) + (if h.open then [ShardStart.Stream(to)] else [])
      ensures InOrder(events)
      ensures r.Success? <==>
                forall h :: h in waits ==> !(h in replies && replies[h].Some? && replies[h].value.Failure?)
      ensures r.Failure? ==> exists h :: h in waits && h in replies && replies[h] == Some(r)
    {
      start := Some(to);
      ghost var bumps := BumpAll();
      var pending;
      ghost var sends;
      pending, sends := SendAll(ShardStart.Stream(to));
      waits := pending;
      events := [Installs] + bumps + sends;
      assert events[1..1 + |bumps|] == bumps && events[1 + |bumps|..] == sends;
      assert OrderedAt(events, 1 + |bumps|);
      r := AwaitAll(pending, replies);
    }
  }

  predicate AllBumps(events: seq<SeekEvent>) {
    forall i :: 0 <= i < |events| ==> events[i].Bumps?
  }

  predicate AllSends(events: seq<SeekEvent>) {
    forall i :: 0 <= i < |events| ==> events[i].Sends?
  }

  predicate OrderedAt(events: seq<SeekEvent>, sends: nat) {
    1 <= sends <= |events| && events[0].Installs? && AllBumps(events[1..sends]) && AllSends(events[sends..])
  }

  /** The position is installed first, and every generation moves before the first command is sent. */
  ghost predicate InOrder(events: seq<SeekEvent>) {
    exists sends :: OrderedAt(events, sends)
  }

  predicate Refuses(replies: map<ShardHandle, Reply>, h: ShardHandle) {
    h in replies && replies[h].Some? && replies[h].value.Failure?
  }

  function FirstRefusal(waits: seq<ShardHandle>, replies: map<ShardHandle, Reply>): (r: Result<(), SeekError>)
    ensures r.Success? <==>
              forall h :: h in waits ==> !(h in replies && replies[h].Some? && replies[h].value.Failure?)
    ensures r.Failure? ==> exists h :: h in waits && h in replies && replies[h] == Some(r)
  {
    if waits == [] then Success(())
    else if Refuses(replies, waits[0]) then replies[waits[0]].value
    else FirstRefusal(waits[1..], replies)
  }

  /** Waits for each answer in turn; stops at the first that is an error. */
  method AwaitAll(waits: seq<ShardHandle>, replies: map<ShardHandle, Reply>) returns (r: Result<(), SeekError>)
    ensures r == FirstRefusal(waits, replies)
  {
    for i := 0 to |waits|
      invariant FirstRefusal(waits, replies) == FirstRefusal(waits[i..], replies)
    {
      if Refuses(replies, waits[i]) {
        return replies[waits[i]].value;
      }
    }
    return Success(());
  }
}
