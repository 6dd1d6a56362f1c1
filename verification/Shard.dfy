/** One shard as every instance sees it: the service's log, the lease row, the readers that ever
    read it, and the acknowledgements of what they handed out.

    Each `Action` is one atomic step of one task: a store or service call taking effect, or the
    local code between two awaits. Whatever the outside decides (how many records a read returns,
    whether a call is answered, whose turn it is) is a parameter of the action, so every
    interleaving is a sequence of actions. No seek lands while such a sequence runs; a position
    installed before it may be any. */
module ShardProtocol {
  import opened Wrappers
  import opened Cursor
  import opened Tracking
  import opened Lease

  type ShardId = string

  /** A record of the log. An aggregated record is reported as an error and never tracked. */
  datatype Record = Record(aggregated: bool)

  datatype Phase =
    | Opening(again: bool)                   // about to read the row: at start, or after an expiry
    | Fetching(again: bool, seen: LeaseState) // row read, iterator being fetched
    | Reading                                // at the top of the loop, with an iterator
    | Handing(upto: nat, last: bool)         // records up to `upto` read; `last`: no next iterator
    | Draining                               // shard read to its end, deliveries outstanding
    | Marking                                // drained, about to write the end mark
    | Releasing(handOff: Option<ShardStart>)
    | Stopped(handOff: Option<ShardStart>)   // returned; the coordinator has not noticed yet
    | Forgotten                              // the coordinator dropped the handle, or died

  /** A reader task, its watermark included: deliveries share it and outlive the task.
      `sawEnd` are the parents whose row said the shard was finished when the reader was vetted. */
  datatype Reader = Reader(owner: Owner, lineage: Lineage, sawEnd: set<ShardId>, position: nat,
                           rewind: Option<ShardStart>, unrecorded: bool,
                           track: Track<SequenceNumber>, phase: Phase)

  /** `keeps` is whether the store keeps the recorded opening. `writes` are the checkpoint writes
      acknowledgements ever started: each may land at any later time, twice, or never. `handed`
      and `settled` are the records ever registered for hand-out and ever settled, `opening` the
      first record a reading recorded. */
  datatype Shard = Shard(keeps: bool, log: seq<Record>, closed: bool, row: Row,
                         readers: seq<Reader>, rewinds: map<Owner, ShardStart>,
                         writes: set<(Owner, SequenceNumber)>,
                         handed: set<SequenceNumber>, settled: set<SequenceNumber>,
                         opening: Option<SequenceNumber>)

  /** How the service answers a request for an iterator: not at all, with none, or with one. */
  datatype FetchAnswer = NoAnswer | NoIterator | Iterator(at: nat)

  /** The steps of a reader task. `lands` says whether a store call took effect, `heard` whether
      its answer arrived: a call its task waits for lands before it is answered or given up, or not
      at all. */
  datatype ReaderStep =
    | ReadRow(heard: bool)
    | Fetch(answer: FetchAnswer, installed: Option<StreamStart>)
    | RenewLease(now: nat, ttl: nat, lands: bool, heard: bool)
    | GetRecords(upto: nat, last: bool)
    | RecordOpening(lands: bool, heard: bool)
    | HandOut
    | FinishBatch
    | SeeDrained
    | MarkEnd(lands: bool)
    | ReleaseLease(lands: bool)
    | ExpireIterator
    | GiveUp                      // too many failed reads in a row
    | LoseStream                  // the service says the stream is gone
    | CloseChannel(releases: bool) // the subscription was dropped

  datatype Action =
    | Append(record: Record)
    | Close
    | TakeLease(owner: Owner, now: nat, ttl: nat)
    | Spawn(owner: Owner, lineage: Lineage, sawEnd: set<ShardId>)
    | ByReader(id: nat, step: ReaderStep)
    | Forget(id: nat)
    | Crash(owner: Owner)
    | Settle(id: nat, index: nat)
    | LandWrite(owner: Owner, sequence: SequenceNumber)

  /** A reader the coordinator still holds a handle of. */
  predicate Held(r: Reader) {
    !r.phase.Forgotten?
  }

  predicate NoReaderOf(s: Shard, owner: Owner) {
    forall i :: 0 <= i < |s.readers| && s.readers[i].owner == owner ==> !Held(s.readers[i])
  }

  /** A reader that has had an iterator, up to its end mark: a failed refetch leaves it the old one. */
  predicate Active(r: Reader) {
    || r.phase.Reading? || r.phase.Handing? || r.phase.Draining? || r.phase.Marking?
    || ((r.phase.Opening? || r.phase.Fetching?) && r.phase.again)
  }

  function SequenceOf(checkpoint: Option<Checkpoint>): Option<SequenceNumber> {
    match checkpoint
    case Some(Sequence(value)) => Some(value)
    case _ => None
  }

  /** The cursor a reader that saw `seen` in the row opens at. */
  function StartOf(r: Reader, seen: LeaseState, installed: Option<StreamStart>): ShardStart {
    ReopenAt(SequenceOf(seen.checkpoint), seen.openedAt, r.rewind, r.lineage, installed)
  }

  /** Where a reader must start, case by case, in positions of the log alone: right after the checkpoint;
      at the recorded opening; at the cursor an earlier reader left; for a shard nobody has read, at
      the first record if it continues its parents, unless a timestamp is installed, and otherwise
      where the subscription says, the tip if it says nothing. A timestamp may name any position. */
  predicate StartsRightly(seen: LeaseState, rewind: Option<ShardStart>, lineage: Lineage,
                          installed: Option<StreamStart>, length: nat, position: nat)
  {
    && position <= length
    && (SequenceOf(seen.checkpoint).Some? ==> position == SequenceOf(seen.checkpoint).value + 1)
    && (SequenceOf(seen.checkpoint).None? && seen.openedAt.Some? ==> position == seen.openedAt.value)
    && (SequenceOf(seen.checkpoint).None? && seen.openedAt.None? ==>
          && (rewind.Some? && rewind.value.At? ==> position == rewind.value.sequence)
          && (rewind.Some? && rewind.value.After? ==> position == rewind.value.sequence + 1)
          && (rewind.Some? && rewind.value == Stream(Horizon) ==> position == 0)
          && (rewind.Some? && rewind.value == Stream(Latest) ==> position == length)
          && (rewind.None? && installed == Some(Horizon) ==> position == 0)
          && (rewind.None? && lineage.Continues? && (installed.None? || installed == Some(Latest)) ==> position == 0)
          && (rewind.None? && lineage.Opens? && (installed.None? || installed == Some(Latest)) ==>
                position == length))
  }

  lemma ReopenedStartsRightly(seen: LeaseState, rewind: Option<ShardStart>, lineage: Lineage,
                              installed: Option<StreamStart>, length: nat, position: nat)
    requires Names(ReopenAt(SequenceOf(seen.checkpoint), seen.openedAt, rewind, lineage, installed), length, position)
    ensures StartsRightly(seen, rewind, lineage, installed, length, position)
  {
  }

  /** The service's iterator starts there, whatever the reader asked for. */
  lemma IteratorStartsRightly(s: Shard, r: Reader, at: nat, installed: Option<StreamStart>)
    requires Ready(s, r, Fetch(Iterator(at), installed))
    ensures StartsRightly(r.phase.seen, r.rewind, r.lineage, installed, |s.log|, at)
    ensures var r' := Moved(s, r, Fetch(Iterator(at), installed));
            && r'.position == at
            && (r'.unrecorded <==> r.phase.seen.checkpoint.None? && r.phase.seen.openedAt.None?)
  {
    ReopenedStartsRightly(r.phase.seen, r.rewind, r.lineage, installed, |s.log|, at);
  }

  predicate Ready(s: Shard, r: Reader, step: ReaderStep) {
    match step
    case ReadRow(_) => r.phase.Opening?
    case Fetch(answer, installed) =>
      r.phase.Fetching?
      && (answer.Iterator? ==> Names(StartOf(r, r.phase.seen, installed), |s.log|, answer.at))
    case RenewLease(_, _, _, _) => r.phase.Reading?
    case GetRecords(upto, last) =>
      r.phase.Reading? && r.position <= upto <= |s.log| && (last ==> s.closed && upto == |s.log|)
    case RecordOpening(_, _) => r.phase.Handing? && r.position < r.phase.upto && r.unrecorded
    case HandOut => r.phase.Handing? && r.position < r.phase.upto && r.position < |s.log| && !r.unrecorded
    case FinishBatch => r.phase.Handing? && r.position == r.phase.upto
    case SeeDrained => r.phase.Draining? && Prefix(r.track) == |r.track.deliveries|
    case MarkEnd(_) => r.phase.Marking?
    case ReleaseLease(_) => r.phase.Releasing?
    case ExpireIterator => r.phase.Reading?
    case GiveUp => r.phase.Reading?
    case LoseStream => r.phase.Reading?
    case CloseChannel(_) => r.phase.Reading? || r.phase.Handing? || r.phase.Draining?
  }

  predicate Enabled(s: Shard, a: Action) {
    match a
    case Append(_) => !s.closed
    case Close => true
    case TakeLease(owner, _, _) => NoReaderOf(s, owner)
    case Spawn(owner, _, _) => NoReaderOf(s, owner)
    case ByReader(id, step) => id < |s.readers| && Ready(s, s.readers[id], step)
    case Forget(id) => id < |s.readers| && s.readers[id].phase.Stopped?
    case Crash(_) => true
    case Settle(id, index) => id < |s.readers| && index < |s.readers[id].track.deliveries|
    case LandWrite(owner, sequence) => (owner, sequence) in s.writes
  }

  function Put(s: Shard, id: nat, r: Reader): Shard
    requires id < |s.readers|
  {
    s.(readers := s.readers[id := r])
  }

  function Write(s: Shard, lands: bool, op: Op): Shard {
    if lands then s.(row := Apply(s.row, op)) else s
  }

  /** Where the reader would send the shard's next reader, the record it is at included. */
  function RewindHere(r: Reader): Option<ShardStart> {
    if r.rewind.None? then Some(At(r.position)) else r.rewind
  }

  /** Whether a recording of the reader's position takes effect. */
  predicate Records(s: Shard, r: Reader, lands: bool) {
    lands && s.row.owner == Some(r.owner)
  }

  /** The reader after its step. */
  function Moved(s: Shard, r: Reader, step: ReaderStep): Reader
    requires Ready(s, r, step)
  {
    match step
    case ReadRow(heard) =>
      if !heard then r.(phase := if r.phase.again then Reading else Stopped(r.rewind))
      else if s.row.checkpoint == Some(ShardEnd) then r.(phase := Stopped(None))
      else r.(phase := Fetching(r.phase.again, StateOf(s.row)))
    case Fetch(NoAnswer, _) => r.(phase := if r.phase.again then Reading else Stopped(r.rewind))
    case Fetch(answer, installed) =>
      var seen := r.phase.seen;
      var r1 := r.(rewind := RewindTo(StartOf(r, seen, installed)),
                   unrecorded := seen.checkpoint.None? && seen.openedAt.None?);
      if answer.Iterator? then r1.(position := answer.at, phase := Reading) else r1.(phase := Stopped(None))
    case RenewLease(now, ttl, lands, heard) =>
      if lands && heard && s.row.owner == Some(r.owner) then r else r.(phase := Stopped(r.rewind))
    case GetRecords(upto, last) => r.(phase := Handing(upto, last))
    case RecordOpening(lands, heard) =>
      if Records(s, r, lands) && heard then r.(rewind := RewindHere(r), unrecorded := false)
      else r.(rewind := RewindHere(r), phase := Stopped(RewindHere(r)))
    case HandOut =>
      var r1 := r.(rewind := RewindHere(r), position := r.position + 1);
      if s.log[r.position].aggregated then r1 else r1.(track := Extend(r.track, r.position))
    case FinishBatch => r.(phase := if r.phase.last then Draining else Reading)
    case SeeDrained => r.(phase := Marking)
    case MarkEnd(_) => r.(phase := Releasing(None))
    case ReleaseLease(_) => r.(phase := Stopped(r.phase.handOff))
    case ExpireIterator => r.(phase := Opening(true))
    case GiveUp => r.(phase := Releasing(r.rewind))
    case LoseStream => r.(phase := Releasing(None))
    case CloseChannel(releases) => r.(phase := if releases then Releasing(None) else Stopped(None))
  }

  /** What the reader's step does outside the reader. The first record of a reading is recorded
      before it is handed out. */
  function Effect(s: Shard, r: Reader, step: ReaderStep): Shard
    requires Ready(s, r, step)
  {
    match step
    case RenewLease(now, ttl, lands, _) => Write(s, lands, Renew(r.owner, now, ttl))
    case RecordOpening(lands, _) =>
      var s1 := Write(s, lands && s.keeps, RecordOpenedAt(r.owner, r.position));
      if Records(s, r, lands) && s.opening.None? then s1.(opening := Some(r.position)) else s1
    case HandOut =>
      if s.log[r.position].aggregated then s else s.(handed := s.handed + {r.position})
    case MarkEnd(lands) => Write(s, lands, SaveCheckpoint(r.owner, ShardEnd))
    case ReleaseLease(lands) => Write(s, lands, Release(r.owner))
    case _ => s
  }

  function DoReader(s: Shard, id: nat, step: ReaderStep): Shard
    requires id < |s.readers| && Ready(s, s.readers[id], step)
  {
    Put(Effect(s, s.readers[id], step), id, Moved(s, s.readers[id], step))
  }

  function DoForget(s: Shard, id: nat): Shard
    requires id < |s.readers| && s.readers[id].phase.Stopped?
  {
    var r := s.readers[id];
    var s1 := Put(s, id, r.(phase := Forgotten));
    if r.phase.handOff.Some? then s1.(rewinds := s.rewinds[r.owner := r.phase.handOff.value]) else s1
  }

  function DoSettle(s: Shard, id: nat, index: nat): Shard
    requires id < |s.readers| && index < |s.readers[id].track.deliveries|
  {
    var r := s.readers[id];
    var marked := Mark(r.track, index);
    var s1 := Put(s, id, r.(track := marked)).(settled := s.settled + {r.track.deliveries[index]});
    match Advanced(r.track, marked)
    case None => s1
    case Some(sequence) => s1.(writes := s.writes + {(r.owner, sequence)})
  }

  function ForgetAll(readers: seq<Reader>, owner: Owner): (rest: seq<Reader>)
    ensures |rest| == |readers|
    ensures forall i :: 0 <= i < |readers| ==>
              rest[i] == if readers[i].owner == owner then readers[i].(phase := Forgotten) else readers[i]
  {
    seq(|readers|, i requires 0 <= i < |readers| =>
      if readers[i].owner == owner then readers[i].(phase := Forgotten) else readers[i])
  }

  function Starting(s: Shard, owner: Owner, lineage: Lineage, sawEnd: set<ShardId>): Reader {
    var rewind := if owner in s.rewinds then Some(s.rewinds[owner]) else None;
    Reader(owner, lineage, sawEnd, 0, rewind, false, Track([], {}), Opening(false))
  }

  function Do(s: Shard, a: Action): Shard
    requires Enabled(s, a)
  {
    match a
    case Append(record) => s.(log := s.log + [record])
    case Close => s.(closed := true)
    case TakeLease(owner, now, ttl) => Write(s, true, Acquire(owner, now, ttl))
    case Spawn(owner, lineage, sawEnd) =>
      s.(readers := s.readers + [Starting(s, owner, lineage, sawEnd)], rewinds := s.rewinds - {owner})
    case ByReader(id, step) => DoReader(s, id, step)
    case Forget(id) => DoForget(s, id)
    case Crash(owner) => s.(readers := ForgetAll(s.readers, owner), rewinds := s.rewinds - {owner})
    case Settle(id, index) => DoSettle(s, id, index)
    case LandWrite(owner, sequence) => Write(s, true, SaveCheckpoint(owner, Sequence(sequence)))
  }

  /** A shard nobody has read: its row is empty. Its log may already hold records. */
  predicate Fresh(s: Shard) {
    && s.row == EMPTY && s.readers == [] && s.rewinds == map[] && s.writes == {}
    && s.handed == {} && s.settled == {} && s.opening == None
  }

  // ----- What a state means -----

  /** Every record of the range that can settle has settled. */
  ghost predicate SettledThrough(s: Shard, from: nat, to: nat) {
    forall q :: from <= q < to && q < |s.log| && !s.log[q].aggregated ==> q in s.settled
  }

  /** `k` may stand in the row: everything from the opening through it has settled. */
  ghost predicate Sound(s: Shard, k: SequenceNumber) {
    && s.opening.Some? && s.opening.value <= k < |s.log|
    && SettledThrough(s, s.opening.value, k + 1)
  }

  /** Every record of the range that can settle has settled, or waits in the first `n` deliveries
      of the track. */
  ghost predicate Accounted(s: Shard, track: Track<SequenceNumber>, n: nat, from: nat, to: nat)
    requires n <= |track.deliveries|
  {
    forall q :: from <= q < to && q < |s.log| && !s.log[q].aggregated ==>
      q in s.settled || q in track.deliveries[..n]
  }

  /** A watermark's deliveries leave no gap behind them, and what it has done has settled. */
  ghost predicate TrackOk(s: Shard, track: Track<SequenceNumber>) {
    && WellFormed(track)
    && (forall i :: 0 <= i < |track.deliveries| ==> track.deliveries[i] in s.handed)
    && (forall i :: i in track.done && i < |track.deliveries| ==> track.deliveries[i] in s.settled)
    && (track.deliveries != [] ==> s.opening.Some?)
    && (forall i :: 0 <= i < |track.deliveries| ==>
          Accounted(s, track, i + 1, s.opening.value, track.deliveries[i] + 1))
  }
}
