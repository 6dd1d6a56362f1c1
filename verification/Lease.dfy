/** The lease contract every store implements: one row per shard, written only by its holder.

    `Apply` is the contract as a function on one row; `Lease` histories are proved about it, and
    the memory and the DynamoDB store are proved to follow it. */
module Lease {
  import opened Wrappers
  import opened Cursor

  type Owner = string

  /** A stored checkpoint: a sequence number, or the mark of a shard read to its end. */
  datatype Checkpoint = Sequence(value: SequenceNumber) | ShardEnd

  datatype LeaseKey = LeaseKey(stream: string, shard: string)

  /** `stream:shard`, the form a store with one string key writes. */
  function KeyText(key: LeaseKey): string {
    key.stream + ":" + key.shard
  }

  lemma FirstColonEndsTheStream(key: LeaseKey)
    requires ':' !in key.stream
    ensures KeyText(key)[|key.stream|] == ':'
    ensures forall i :: 0 <= i < |key.stream| ==> KeyText(key)[i] != ':'
  {
  }

  /** A stream name holds no colon, so no two keys share their text. */
  lemma KeyTextIsUnambiguous(a: LeaseKey, b: LeaseKey)
    requires ':' !in a.stream && ':' !in b.stream
    requires KeyText(a) == KeyText(b)
    ensures a == b
  {
    FirstColonEndsTheStream(a);
    FirstColonEndsTheStream(b);
    assert |a.stream| == |b.stream|;
    assert a.stream == KeyText(a)[..|a.stream|] == b.stream;
    assert a.shard == KeyText(a)[|a.stream| + 1..] == b.shard;
  }

  /** One shard's lease. The checkpoint and the opening are the shard's: they outlive the holder. */
  datatype Row = Row(owner: Option<Owner>, expires: Option<nat>,
                     checkpoint: Option<Checkpoint>, openedAt: Option<SequenceNumber>)

  const EMPTY := Row(None, None, None, None)

  /** What a store answers a read with. */
  datatype LeaseState = LeaseState(checkpoint: Option<Checkpoint>, openedAt: Option<SequenceNumber>)

  function StateOf(row: Row): LeaseState {
    LeaseState(row.checkpoint, row.openedAt)
  }

  /** The writes of a lease store; `now` is whatever the caller's clock says. */
  datatype Op =
    | Acquire(owner: Owner, now: nat, ttl: nat)
    | Renew(owner: Owner, now: nat, ttl: nat)
    | SaveCheckpoint(owner: Owner, checkpoint: Checkpoint)
    | RecordOpenedAt(owner: Owner, sequence: SequenceNumber)
    | Release(owner: Owner)

  /** Whether the operation is answered `true`: the lease is free, expired or the caller's own for
      an acquire, and held by the caller for everything else. */
  predicate Granted(row: Row, op: Op) {
    match op
    case Acquire(owner, now, _) =>
      !(row.owner.Some? && row.owner.value != owner && row.expires.Some? && row.expires.value > now)
    case _ => row.owner == Some(op.owner)
  }

  function Apply(row: Row, op: Op): Row {
    if !Granted(row, op) then row
    else
      match op
      case Acquire(owner, now, ttl) => row.(owner := Some(owner), expires := Some(now + ttl))
      case Renew(_, now, ttl) => row.(expires := Some(now + ttl))
      case SaveCheckpoint(_, checkpoint) => row.(checkpoint := Some(checkpoint))
      case RecordOpenedAt(_, sequence) => row.(openedAt := Some(sequence))
      case Release(_) => row.(owner := None, expires := None)
  }

  // ----- Whole histories -----

  /** The row after a history of operations, in the order the store performed them. */
  function After(ops: seq<Op>): Row {
    if ops == [] then EMPTY else Apply(After(ops[..|ops| - 1]), ops[|ops| - 1])
  }

  /** Whether operation `i` of the history was answered `true`. */
  predicate WasGranted(ops: seq<Op>, i: nat)
    requires i < |ops|
  {
    Granted(After(ops[..i]), ops[i])
  }

  predicate GrantsLease(ops: seq<Op>, i: nat, owner: Owner)
    requires i < |ops|
  {
    ops[i].Acquire? && ops[i].owner == owner && WasGranted(ops, i)
  }

  /** Among the first `n` operations, `owner` was granted the lease at `i`, nobody was granted it
      after that, and `owner` has not released it. Says nothing about rows. */
  ghost predicate LastGrant(ops: seq<Op>, n: nat, i: nat, owner: Owner)
    requires n <= |ops|
  {
    && i < n
    && GrantsLease(ops, i, owner)
    && forall j :: i < j < n ==> !EndsGrant(ops, j, owner)
  }

  predicate EndsGrant(ops: seq<Op>, j: nat, owner: Owner)
    requires j < |ops|
  {
    || (ops[j].Acquire? && WasGranted(ops, j))
    || (ops[j].Release? && ops[j].owner == owner)
  }

  lemma AfterNext(ops: seq<Op>, i: nat)
    requires i < |ops|
    ensures After(ops[..i + 1]) == Apply(After(ops[..i]), ops[i])
  {
    assert ops[..i + 1][..i] == ops[..i];
  }

  lemma LastGrantNext(ops: seq<Op>, n: nat, i: nat, owner: Owner)
    requires n < |ops|
    ensures LastGrant(ops, n + 1, i, owner)
            <==> (i == n && GrantsLease(ops, n, owner))
                 || (LastGrant(ops, n, i, owner) && !EndsGrant(ops, n, owner))
  {
  }

  /** The holder is the last granted acquirer that has not released: the row names `owner` exactly
      when the history does. The row has an expiry exactly while it has a holder. */
  lemma {:induction false} HolderIsTheLastGrant(ops: seq<Op>, n: nat, owner: Owner)
    requires n <= |ops|
    ensures After(ops[..n]).owner == Some(owner) <==> exists i :: LastGrant(ops, n, i, owner)
    ensures After(ops[..n]).owner.Some? <==> After(ops[..n]).expires.Some?
  {
    if n == 0 {
      assert ops[..0] == [];
    } else {
      HolderIsTheLastGrant(ops, n - 1, owner);
      AfterNext(ops, n - 1);
      forall i: nat
        ensures LastGrant(ops, n, i, owner)
                <==> (i == n - 1 && GrantsLease(ops, n - 1, owner))
                     || (LastGrant(ops, n - 1, i, owner) && !EndsGrant(ops, n - 1, owner))
      {
        LastGrantNext(ops, n - 1, i, owner);
      }
      if GrantsLease(ops, n - 1, owner) {
        assert LastGrant(ops, n, n - 1, owner);
      } else if After(ops[..n]).owner == Some(owner) {
        var i :| LastGrant(ops, n - 1, i, owner);
        assert LastGrant(ops, n, i, owner);
      }
    }
  }

  /** Between another owner's grant and its own next grant, an owner changes nothing. */
  lemma {:induction false} FencedOwnerChangesNothing(ops: seq<Op>, i: nat, j: nat, thief: Owner, fenced: Owner)
    requires i < j < |ops| && thief != fenced
    requires GrantsLease(ops, i, thief)
    requires forall k :: i < k < j ==> !GrantsLease(ops, k, fenced)
    requires ops[j].owner == fenced && !ops[j].Acquire?
    ensures !WasGranted(ops, j)
    ensures After(ops[..j + 1]) == After(ops[..j])
  {
    NotHolderUntilGranted(ops, i, j, thief, fenced);
    AfterNext(ops, j);
  }

  lemma {:induction false} NotHolderUntilGranted(ops: seq<Op>, i: nat, j: nat, thief: Owner, fenced: Owner)
    requires i < j <= |ops| && thief != fenced
    requires GrantsLease(ops, i, thief)
    requires forall k :: i < k < j ==> !GrantsLease(ops, k, fenced)
    ensures After(ops[..j]).owner != Some(fenced)
    decreases j
  {
    AfterNext(ops, j - 1);
    if i < j - 1 {
      assert !GrantsLease(ops, j - 1, fenced);
      NotHolderUntilGranted(ops, i, j - 1, thief, fenced);
    }
  }

  predicate WritesExpiry(ops: seq<Op>, j: nat)
    requires j < |ops|
  {
    (ops[j].Acquire? || ops[j].Renew? || ops[j].Release?) && WasGranted(ops, j)
  }

  /** Among the first `n` operations, `i` was the last to write the holder's expiry. */
  ghost predicate LastExpiryWrite(ops: seq<Op>, n: nat, i: nat)
    requires n <= |ops|
  {
    && i < n
    && WritesExpiry(ops, i) && !ops[i].Release?
    && forall j :: i < j < n ==> !WritesExpiry(ops, j)
  }

  lemma {:induction false} ExpiryIsTheLastWrite(ops: seq<Op>, n: nat) returns (i: nat)
    requires n <= |ops| && After(ops[..n]).owner.Some?
    ensures LastExpiryWrite(ops, n, i)
    ensures After(ops[..n]).owner == Some(ops[i].owner)
    ensures After(ops[..n]).expires == Some(ops[i].now + ops[i].ttl)
  {
    AfterNext(ops, n - 1);
    if WritesExpiry(ops, n - 1) {
      i := n - 1;
    } else {
      i := ExpiryIsTheLastWrite(ops, n - 1);
    }
  }

  /** A lease is granted away from its holder only once the holder's last written expiry is past,
      by the clock of the owner that takes it. */
  lemma StealOnlyPastExpiry(ops: seq<Op>, n: nat, holder: Owner, thief: Owner) returns (i: nat)
    requires n < |ops| && holder != thief
    requires After(ops[..n]).owner == Some(holder)
    requires GrantsLease(ops, n, thief)
    ensures LastExpiryWrite(ops, n, i) && ops[i].owner == holder
    ensures ops[i].now + ops[i].ttl <= ops[n].now
  {
    i := ExpiryIsTheLastWrite(ops, n);
  }

  /** An acquire is granted exactly unless somebody else holds the lease and the expiry written last is
      still to come, by the caller's clock: an expired or released lease can always be taken. */
  lemma AcquireIsGrantedExactlyWhen(ops: seq<Op>, n: nat)
    requires n < |ops| && ops[n].Acquire?
    ensures WasGranted(ops, n)
            <==> !exists holder, i: nat, j: nat :: holder != ops[n].owner && LastGrant(ops, n, i, holder)
                                         && LastExpiryWrite(ops, n, j) && ops[j].now + ops[j].ttl > ops[n].now
  {
    var row := After(ops[..n]);
    if row.owner.Some? {
      HolderIsTheLastGrant(ops, n, row.owner.value);
      var i :| LastGrant(ops, n, i, row.owner.value);
      var j := ExpiryIsTheLastWrite(ops, n);
      assert LastGrant(ops, n, i, row.owner.value) && LastExpiryWrite(ops, n, j);
      forall holder, i': nat, j': nat | LastGrant(ops, n, i', holder) && LastExpiryWrite(ops, n, j')
        ensures holder == row.owner.value && j' == j
      {
        HolderIsTheLastGrant(ops, n, holder);
        LastWriteIsUnique(ops, n, j, j');
      }
    } else {
      forall holder, i: nat | LastGrant(ops, n, i, holder)
        ensures false
      {
        HolderIsTheLastGrant(ops, n, holder);
      }
    }
  }

  lemma LastWriteIsUnique(ops: seq<Op>, n: nat, i: nat, j: nat)
    requires n <= |ops| && LastExpiryWrite(ops, n, i) && LastExpiryWrite(ops, n, j)
    ensures i == j
  {
  }

  predicate WritesCheckpoint(ops: seq<Op>, j: nat)
    requires j < |ops|
  {
    ops[j].SaveCheckpoint? && WasGranted(ops, j)
  }

  predicate WritesOpening(ops: seq<Op>, j: nat)
    requires j < |ops|
  {
    ops[j].RecordOpenedAt? && WasGranted(ops, j)
  }

  /** The checkpoint is the one its last granted write stored; nothing else sets it, moves it or takes
      it away, a release and a steal included. */
  lemma {:induction false} CheckpointIsTheLastWrite(ops: seq<Op>, n: nat) returns (i: Option<nat>)
    requires n <= |ops|
    ensures i.None? ==> After(ops[..n]).checkpoint.None? && forall j :: 0 <= j < n ==> !WritesCheckpoint(ops, j)
    ensures i.Some? ==>
              && i.value < n && WritesCheckpoint(ops, i.value)
              && After(ops[..n]).checkpoint == Some(ops[i.value].checkpoint)
              && forall j :: i.value < j < n ==> !WritesCheckpoint(ops, j)
  {
    if n == 0 {
      i := None;
    } else {
      AfterNext(ops, n - 1);
      if WritesCheckpoint(ops, n - 1) {
        i := Some(n - 1);
      } else {
        i := CheckpointIsTheLastWrite(ops, n - 1);
      }
    }
  }

  /** And so is the recorded opening. */
  lemma {:induction false} OpeningIsTheLastWrite(ops: seq<Op>, n: nat) returns (i: Option<nat>)
    requires n <= |ops|
    ensures i.None? ==> After(ops[..n]).openedAt.None? && forall j :: 0 <= j < n ==> !WritesOpening(ops, j)
    ensures i.Some? ==>
              && i.value < n && WritesOpening(ops, i.value)
              && After(ops[..n]).openedAt == Some(ops[i.value].sequence)
              && forall j :: i.value < j < n ==> !WritesOpening(ops, j)
  {
    if n == 0 {
      i := None;
    } else {
      AfterNext(ops, n - 1);
      if WritesOpening(ops, n - 1) {
        i := Some(n - 1);
      } else {
        i := OpeningIsTheLastWrite(ops, n - 1);
      }
    }
  }

  // ----- The in-process store -----

  /** One mutex guards the map, so each method is one atomic step. A key never seen reads as an
      empty lease. */
  class MemoryLeaseStore {
    var leases: map<LeaseKey, Row>

    constructor ()
      ensures forall key :: RowOf(key) == EMPTY
    {
      leases := map[];
    }

    ghost function RowOf(key: LeaseKey): Row
      reads this
    {
      if key in leases then leases[key] else EMPTY
    }

    ghost predicate OthersUnchanged(key: LeaseKey, before: map<LeaseKey, Row>)
      reads this
    {
      forall other :: other != key ==>
        (other in leases <==> other in before) && (other in before ==> leases[other] == before[other])
    }

    /** Looks a lease up, creating an empty one for a new key. */
    method Entry(key: LeaseKey) returns (lease: Row)
      modifies this
      ensures lease == old(RowOf(key)) && key in leases && RowOf(key) == lease
      ensures OthersUnchanged(key, old(leases))
    {
      if key !in leases {
        leases := leases[key := EMPTY];
      }
      lease := leases[key];
    }

    method Acquire(key: LeaseKey, owner: Owner, now: nat, ttl: nat) returns (granted: bool)
      modifies this
      ensures granted == Granted(old(RowOf(key)), Op.Acquire(owner, now, ttl))
      ensures RowOf(key) == Apply(old(RowOf(key)), Op.Acquire(owner, now, ttl))
      ensures OthersUnchanged(key, old(leases))
    {
      var lease := Entry(key);
      var held := lease.owner.Some? && lease.owner.value != owner
                  && lease.expires.Some? && lease.expires.value > now;
      if held {
        return false;
      }
      leases := leases[key := lease.(owner := Some(owner), expires := Some(now + ttl))];
      return true;
    }

    method Renew(key: LeaseKey, owner: Owner, now: nat, ttl: nat) returns (held: bool)
      modifies this
      ensures held == Granted(old(RowOf(key)), Op.Renew(owner, now, ttl))
      ensures RowOf(key) == Apply(old(RowOf(key)), Op.Renew(owner, now, ttl))
      ensures OthersUnchanged(key, old(leases))
    {
      var lease := Entry(key);
      held := lease.owner == Some(owner);
      if held {
        leases := leases[key := lease.(expires := Some(now + ttl))];
      }
    }

    method SaveCheckpoint(key: LeaseKey, owner: Owner, checkpoint: Checkpoint) returns (held: bool)
      modifies this
      ensures held == Granted(old(RowOf(key)), Op.SaveCheckpoint(owner, checkpoint))
      ensures RowOf(key) == Apply(old(RowOf(key)), Op.SaveCheckpoint(owner, checkpoint))
      ensures OthersUnchanged(key, old(leases))
    {
      var lease := Entry(key);
      held := lease.owner == Some(owner);
      if held {
        leases := leases[key := lease.(checkpoint := Some(checkpoint))];
      }
    }

    method RecordOpenedAt(key: LeaseKey, owner: Owner, sequence: SequenceNumber) returns (held: bool)
      modifies this
      ensures held == Granted(old(RowOf(key)), Op.RecordOpenedAt(owner, sequence))
      ensures RowOf(key) == Apply(old(RowOf(key)), Op.RecordOpenedAt(owner, sequence))
      ensures OthersUnchanged(key, old(leases))
    {
      var lease := Entry(key);
      held := lease.owner == Some(owner);
      if held {
        leases := leases[key := lease.(openedAt := Some(sequence))];
      }
    }

    method Read(key: LeaseKey) returns (state: LeaseState)
      modifies this
      ensures state == StateOf(old(RowOf(key))) && RowOf(key) == old(RowOf(key))
      ensures OthersUnchanged(key, old(leases))
    {
      var lease := Entry(key);
      state := LeaseState(lease.checkpoint, lease.openedAt);
    }

    method Release(key: LeaseKey, owner: Owner)
      modifies this
      ensures RowOf(key) == Apply(old(RowOf(key)), Op.Release(owner))
      ensures OthersUnchanged(key, old(leases))
    {
      var lease := Entry(key);
      if lease.owner == Some(owner) {
        leases := leases[key := lease.(owner := None, expires := None)];
      }
    }
  }
}
