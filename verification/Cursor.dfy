/** The cursors a shard's reader opens at, and where the iterator of each one starts.

    A record's sequence number is its position in the shard's log. The service compares sequence
    numbers, this crate never does: it only stores them and hands them back. */
module Cursor {
  import opened Wrappers

  type SequenceNumber = nat

  /** A position every shard of a subscription can open at. */
  datatype StreamStart = Horizon | Latest | Timestamp(millis: nat)

  /** The cursor one shard's reader opens with. */
  datatype ShardStart =
    | Stream(start: StreamStart)
    | At(sequence: SequenceNumber)
    | After(sequence: SequenceNumber)

  /** Whether a shard's reader picks up a reading its parents left off. */
  datatype Lineage = Opens | Continues

  function ReopenAt(checkpoint: Option<SequenceNumber>, openedAt: Option<SequenceNumber>,
                    rewind: Option<ShardStart>, lineage: Lineage, installed: Option<StreamStart>): ShardStart
  {
    match (checkpoint, openedAt, rewind, lineage, installed)
    case (Some(sequence), _, _, _, _) => After(sequence)
    case (None, Some(sequence), _, _, _) => At(sequence)
    case (None, None, Some(start), _, _) => start
    case (None, None, None, Continues, Some(Timestamp(millis))) => Stream(Timestamp(millis))
    case (None, None, None, Continues, _) => Stream(Horizon)
    case (None, None, None, Opens, Some(start)) => Stream(start)
    case (None, None, None, Opens, None) => Stream(Latest)
  }

  function RewindTo(start: ShardStart): Option<ShardStart> {
    if start == Stream(Latest) then None else Some(start)
  }

  /** Whether the iterator fetched at `start`, from a shard whose log is `length` long at that
      moment, may start at `position`. The service matches a timestamp only approximately, so a
      timestamp may name any position; nothing has been trimmed, so the horizon is the first
      record. */
  predicate Names(start: ShardStart, length: nat, position: nat) {
    && position <= length
    && match start
       case Stream(Horizon) => position == 0
       case Stream(Latest) => position == length
       case Stream(Timestamp(_)) => true
       case At(sequence) => position == sequence
       case After(sequence) => position == sequence + 1
  }

  /** A cursor that names one position whatever the length of the log: any but the tip, if the
      service puts a timestamp at the same record whenever it is asked. */
  predicate Fixed(start: ShardStart) {
    start != Stream(Latest)
  }

  /** The one position a fixed cursor names; `stamp` is where the service puts a timestamp. */
  function Point(start: ShardStart, stamp: nat -> nat): nat
    requires Fixed(start)
  {
    match start
    case Stream(Timestamp(millis)) => stamp(millis)
    case Stream(_) => 0
    case At(sequence) => sequence
    case After(sequence) => sequence + 1
  }

  /** What makes a rewind worth keeping: unlike the tip, which alone is not kept, it names the same place
      however far the log has moved when it is fetched again. */
  lemma RewindNamesTheSamePlace(start: ShardStart, stamp: nat -> nat, length: nat, position: nat, later: nat,
                                again: nat)
    requires Names(start, length, position)
    requires start.Stream? && start.start.Timestamp? ==> position == again == stamp(start.start.millis)
    ensures RewindTo(start).None? <==> start == Stream(Latest)
    ensures RewindTo(start).Some? && Names(RewindTo(start).value, later, again) ==>
              again == position == Point(start, stamp)
  {
  }

  /** The tip is the one cursor that is not kept, and it does move. */
  lemma TipMoves(length: nat, later: nat)
    requires length < later
    ensures RewindTo(Stream(Latest)).None?
    ensures forall p, q :: Names(Stream(Latest), length, p) && Names(Stream(Latest), later, q) ==> p < q
  {
  }
}
