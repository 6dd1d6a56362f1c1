/** How a delivery settles: its generation is weighed against the shard's gate, its index is marked
    on the reader's watermark, and a watermark that moved writes a checkpoint, if its owner still
    holds the lease. */
module Settling {
  import opened Wrappers
  import opened Cursor
  import opened Tracking
  import opened Lease

  /** The generation one shard's seeks bump and its settlements load. */
  class Gate {
    var generation: nat

    constructor ()
      ensures generation == 0
    {
      generation := 0;
    }

    method Bump()
      modifies this
      ensures generation == old(generation) + 1
    {
      generation := generation + 1;
    }
  }

  datatype AckError = Unsupported | Broker

  /** What settling did to a lease: it wrote nothing, or the one checkpoint the watermark reached. */
  function Saved(row: Row, owner: Owner, advanced: Option<SequenceNumber>): Row {
    match advanced
    case None => row
    case Some(sequence) => Apply(row, SaveCheckpoint(owner, Sequence(sequence)))
  }

  /** A checkpoint that settling changes names a delivery of the watermark with no unsettled
      delivery up to it, and is written only for the owner that holds the lease. */
  lemma SavedIsSettled(row: Row, owner: Owner, before: Track<SequenceNumber>, index: nat) returns (p: nat)
    requires WellFormed(before)
    requires Saved(row, owner, Advanced(before, Mark(before, index))) != row
    ensures row.owner == Some(owner) && index == Prefix(before) < p <= |before.deliveries|
    ensures Saved(row, owner, Advanced(before, Mark(before, index))).checkpoint
            == Some(Sequence(before.deliveries[p - 1]))
    ensures forall i :: 0 <= i < p ==> i == index || i in before.done
    ensures p < |before.deliveries| ==> p !in before.done
  {
    MarkMovesPrefix(before, index);
    p := Prefix(Mark(before, index));
    assert forall i :: 0 <= i < p ==> i in Mark(before, index).done;
  }

  /** And settling the delivery that the watermark waits on does change it, for the owner that holds the
      lease: the checkpoint is then the last delivery with none unsettled before it. */
  lemma SettlingSaves(row: Row, owner: Owner, before: Track<SequenceNumber>, index: nat, p: nat)
    requires WellFormed(before) && row.owner == Some(owner)
    requires index == Prefix(before) < p <= |before.deliveries|
    requires forall i :: index < i < p ==> i in before.done
    requires p < |before.deliveries| ==> p !in before.done
    ensures Saved(row, owner, Advanced(before, Mark(before, index)))
            == row.(checkpoint := Some(Sequence(before.deliveries[p - 1])))
  {
    PrefixIsUnique(Mark(before, index), p);
  }

  /** What a reader stamps onto every record it hands out. */
  class Settlement {
    const tracker: Watermark<SequenceNumber>
    const index: nat
    const store: MemoryLeaseStore
    const lease: LeaseKey
    const owner: Owner
    const epoch: nat
    const gate: Gate

    constructor (tracker: Watermark<SequenceNumber>, index: nat, store: MemoryLeaseStore, lease: LeaseKey,
                 owner: Owner, epoch: nat, gate: Gate)
      ensures this.tracker == tracker && this.index == index && this.store == store && this.lease == lease
      ensures this.owner == owner && this.epoch == epoch && this.gate == gate
    {
      this.tracker, this.index, this.store, this.lease := tracker, index, store, lease;
      this.owner, this.epoch, this.gate := owner, epoch, gate;
    }

    /** A settlement of an earlier generation touches neither the watermark nor the store. `lands` is
        whether the store call takes effect, `heard` whether its answer arrives; one that does not
        is the caller's error, and a fenced write is not. */
    method Settle(lands: bool, heard: bool) returns (r: Result<(), AckError>)
      requires tracker.Valid()
      modifies tracker, store
      ensures tracker.Valid()
      ensures r == if gate.generation == epoch && index == Prefix(old(tracker.track)) < |old(tracker.track).deliveries|
                      && !heard then Failure(Broker)
                   else Success(())
      ensures tracker.track == if gate.generation == epoch then Mark(old(tracker.track), index) else old(tracker.track)
      ensures store.RowOf(lease)
              == if gate.generation == epoch && lands
                 then Saved(old(store.RowOf(lease)), owner, Advanced(old(tracker.track), tracker.track))
                 else old(store.RowOf(lease))
      ensures gate.generation != epoch ==> store.leases == old(store.leases)
      ensures store.OthersUnchanged(lease, old(store.leases))
    {
      if gate.generation != epoch {
        return Success(());
      }
      MarkMovesPrefix(tracker.track, index);
      var sequence := tracker.Settle(index);
      if sequence.None? {
        return Success(());
      }
      if lands {
        var _ := store.SaveCheckpoint(lease, owner, Sequence(sequence.value));
      }
      r := if heard then Success(()) else Failure(Broker);
    }

    method Ack(lands: bool, heard: bool) returns (r: Result<(), AckError>)
      requires tracker.Valid()
      modifies tracker, store
      ensures tracker.Valid()
      ensures r == if gate.generation == epoch && index == Prefix(old(tracker.track)) < |old(tracker.track).deliveries|
                      && !heard then Failure(Broker)
                   else Success(())
      ensures tracker.track == if gate.generation == epoch then Mark(old(tracker.track), index) else old(tracker.track)
      ensures store.RowOf(lease)
              == if gate.generation == epoch && lands
                 then Saved(old(store.RowOf(lease)), owner, Advanced(old(tracker.track), tracker.track))
                 else old(store.RowOf(lease))
      ensures store.OthersUnchanged(lease, old(store.leases))
    {
      r := Settle(lands, heard);
    }

    /** A record that should come back is refused, and stays unsettled: the watermark stops at it. */
    method Nack(requeue: bool, lands: bool, heard: bool) returns (r: Result<(), AckError>)
      requires tracker.Valid()
      modifies tracker, store
      ensures tracker.Valid()
      ensures r == if requeue then Failure(Unsupported)
                   else if gate.generation == epoch && !heard
                           && index == Prefix(old(tracker.track)) < |old(tracker.track).deliveries| then Failure(Broker)
                   else Success(())
      ensures requeue ==> tracker.track == old(tracker.track) && store.leases == old(store.leases)
      ensures !requeue ==>
                tracker.track == if gate.generation == epoch then Mark(old(tracker.track), index) else old(tracker.track)
      ensures !requeue ==>
                store.RowOf(lease)
                == if gate.generation == epoch && lands
                   then Saved(old(store.RowOf(lease)), owner, Advanced(old(tracker.track), tracker.track))
                   else old(store.RowOf(lease))
      ensures store.OthersUnchanged(lease, old(store.leases))
    {
      if requeue {
        return Failure(Unsupported);
      }
      r := Settle(lands, heard);
    }
  }
}
