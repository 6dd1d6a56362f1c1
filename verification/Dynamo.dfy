/** The DynamoDB store: one item per stream and shard, every write conditional on the item, and a
    read that adopts the checkpoint of a row written before rows were kept per stream.

    A request is one atomic step of the table. What other owners, other readers and instances of
    the earlier version do between the requests of one read is a list of operations per gap. */
module Dynamo {
  import opened Wrappers
  import opened Cursor
  import Lease

  type LeaseKey = Lease.LeaseKey
  type Checkpoint = Lease.Checkpoint
  type LeaseState = Lease.LeaseState
  type Op = Lease.Op

  /** An item's attributes; an attribute the item lacks is `None`, a counter it lacks is 0. */
  datatype Item = Item(owner: Option<string>, expiry: Option<nat>, counter: nat,
                       checkpoint: Option<Checkpoint>, openedAt: Option<SequenceNumber>)

  type Table = map<string, Item>

  const ABSENT := Item(None, None, 0, None, None)

  function ItemAt(table: Table, key: string): Item {
    if key in table then table[key] else ABSENT
  }

  /** Whether the condition of the operation's conditional write holds. */
  predicate Holds(item: Item, op: Op) {
    match op
    case Acquire(owner, now, _) =>
      item.owner.None? || item.owner == Some(owner) || (item.expiry.Some? && item.expiry.value < now)
    case _ => item.owner == Some(op.owner)
  }

  function Updated(item: Item, op: Op): Item {
    var counted := item.(counter := item.counter + 1);
    match op
    case Acquire(owner, now, ttl) => counted.(owner := Some(owner), expiry := Some(now + ttl))
    case Renew(_, now, ttl) => counted.(expiry := Some(now + ttl))
    case SaveCheckpoint(_, checkpoint) => counted.(checkpoint := Some(checkpoint))
    case RecordOpenedAt(_, sequence) => counted.(openedAt := Some(sequence))
    case Release(_) => counted.(owner := None, expiry := None)
  }

  function Request(item: Item, op: Op): Item {
    if Holds(item, op) then Updated(item, op) else item
  }

  // ----- The contract -----

  function RowOf(item: Item): Lease.Row {
    Lease.Row(item.owner, item.expiry, item.checkpoint, item.openedAt)
  }

  /** Items this store wrote carry an expiry exactly while they carry an owner. */
  predicate Leased(item: Item) {
    item.owner.Some? <==> item.expiry.Some?
  }

  /** Under one clock the two stores agree on every operation, but at the very instant a lease
      expires: there the memory store grants it and this one does not. */
  lemma StoresAgree(item: Item, op: Op)
    requires Leased(item)
    ensures Leased(Request(item, op))
    ensures Holds(item, op) ==> Lease.Granted(RowOf(item), op)
    ensures Lease.Granted(RowOf(item), op) && !Holds(item, op)
            <==> op.Acquire? && item.owner.Some? && item.owner.value != op.owner && item.expiry == Some(op.now)
    ensures RowOf(Request(item, op)) == if Holds(item, op) then Lease.Apply(RowOf(item), op) else RowOf(item)
  {
  }

  function After(ops: seq<Op>): Item {
    if ops == [] then ABSENT else Request(After(ops[..|ops| - 1]), ops[|ops| - 1])
  }

  /** The operations of a history whose condition held when they arrived. */
  function Effective(ops: seq<Op>): seq<Op> {
    if ops == [] then []
    else
      var init, last := ops[..|ops| - 1], ops[|ops| - 1];
      Effective(init) + if Holds(After(init), last) then [last] else []
  }

  /** A history of requests leaves the row the lease contract gives for the ones that took effect,
      each of which the contract grants where it stands: so all that is proved of lease histories
      holds of this store. The counter is the number of row writes. */
  lemma {:induction false} FollowsTheContract(ops: seq<Op>)
    ensures Leased(After(ops))
    ensures RowOf(After(ops)) == Lease.After(Effective(ops))
    ensures forall i :: 0 <= i < |Effective(ops)| ==> Lease.WasGranted(Effective(ops), i)
    ensures After(ops).counter == |Effective(ops)|
  {
    if ops != [] {
      var init, last := ops[..|ops| - 1], ops[|ops| - 1];
      FollowsTheContract(init);
      StoresAgree(After(init), last);
      if Holds(After(init), last) {
        EffectiveNext(Effective(init), last);
        assert Effective(ops) == Effective(init) + [last];
      } else {
        assert Effective(ops) == Effective(init);
      }
    }
  }

  lemma EffectiveNext(ops: seq<Op>, last: Op)
    requires forall i :: 0 <= i < |ops| ==> Lease.WasGranted(ops, i)
    requires Lease.Granted(Lease.After(ops), last)
    ensures Lease.After(ops + [last]) == Lease.Apply(Lease.After(ops), last)
    ensures forall i :: 0 <= i < |ops| + 1 ==> Lease.WasGranted(ops + [last], i)
  {
    var longer := ops + [last];
    assert longer[..|ops|] == ops;
    forall i | 0 <= i < |longer|
      ensures Lease.WasGranted(longer, i)
    {
      assert longer[..i] == ops[..i];
      if i < |ops| {
        assert Lease.WasGranted(ops, i);
      } else {
        assert ops[..i] == ops;
      }
    }
  }

  // ----- Reading, with rows of the earlier version about -----

  /** What anyone may do to the table while a read is under way: a lease operation on any row, the
      copy step of another read, or an instance of the earlier version writing its bare row. */
  datatype TableOp =
    | OnRow(key: LeaseKey, op: Op)
    | Copy(key: LeaseKey, checkpoint: Checkpoint)
    | OnBareRow(shard: string, item: Item)

  /** Shard ids hold no colon and own keys do, so the two kinds of rows never meet. */
  predicate Proper(op: TableOp) {
    op.OnBareRow? ==> ':' !in op.shard
  }

  /** Copies a checkpoint onto the stream's own row, unless it has one. */
  function Copied(table: Table, key: LeaseKey, checkpoint: Checkpoint): Table {
    var item := ItemAt(table, Lease.KeyText(key));
    if item.checkpoint.Some? then table
    else table[Lease.KeyText(key) := item.(checkpoint := Some(checkpoint), counter := item.counter + 1)]
  }

  function Perform(table: Table, op: TableOp): Table {
    match op
    case OnRow(key, op) =>
      var item := ItemAt(table, Lease.KeyText(key));
      if Holds(item, op) then table[Lease.KeyText(key) := Updated(item, op)] else table
    case Copy(key, checkpoint) => Copied(table, key, checkpoint)
    case OnBareRow(shard, item) => table[shard := item]
  }

  function PerformAll(table: Table, ops: seq<TableOp>): Table {
    if ops == [] then table else Perform(PerformAll(table, ops[..|ops| - 1]), ops[|ops| - 1])
  }

  datatype ReadError = UnattributedLegacyRow(shard: string, stream: string)

  /** The table at the moments a read's own requests see it, with what others did in the gaps:
      the first get, the get of the bare row, before and after the copy, and the last get. */
  datatype Moments = Moments(first: Table, bare: Table, before: Table, after: Table, last: Table)

  function MomentsOf(table: Table, key: LeaseKey, gap1: seq<TableOp>, gap2: seq<TableOp>,
                     gap3: seq<TableOp>): Moments
  {
    var bare := PerformAll(table, gap1);
    var before := PerformAll(bare, gap2);
    var legacy := ItemAt(bare, key.shard).checkpoint;
    var after := if legacy.Some? then Copied(before, key, legacy.value) else before;
    Moments(table, bare, before, after, PerformAll(after, gap3))
  }

  function Own(table: Table, key: LeaseKey): Item {
    ItemAt(table, Lease.KeyText(key))
  }

  /** The store. `legacyStream` is the stream its bare rows belong to, if the operator named one. */
  class DynamoLeaseStore {
    var table: Table
    const legacyStream: Option<string>

    constructor (table: Table, legacyStream: Option<string>)
      ensures this.table == table && this.legacyStream == legacyStream
    {
      this.table := table;
      this.legacyStream := legacyStream;
    }

    /** One conditional write; `op` names the update and condition expressions. */
    method Write(key: LeaseKey, op: Op) returns (ok: bool)
      modifies this
      ensures ok == Holds(Own(old(table), key), op)
      ensures table == Perform(old(table), OnRow(key, op))
      ensures Own(table, key) == Request(Own(old(table), key), op)
    {
      var item := ItemAt(table, Lease.KeyText(key));
      ok := Holds(item, op);
      if ok {
        table := table[Lease.KeyText(key) := Updated(item, op)];
      }
    }

    method Interfere(ops: seq<TableOp>)
      modifies this
      ensures table == PerformAll(old(table), ops)
    {
      assert ops[..|ops|] == ops;
      for i := 0 to |ops|
        invariant table == PerformAll(old(table), ops[..i])
      {
        assert ops[..i + 1][..i] == ops[..i];
        table := Perform(table, ops[i]);
      }
    }

    /** Sets the checkpoint of an own row that has none, and counts the write; holder, expiry and opening
        stay, and so does every other row. */
    method Adopt(key: LeaseKey, checkpoint: Checkpoint) returns (wrote: bool)
      modifies this
      ensures table == Copied(old(table), key, checkpoint)
      ensures wrote <==> Own(old(table), key).checkpoint.None?
      ensures var was, now := Own(old(table), key), Own(table, key);
              && now.owner == was.owner && now.expiry == was.expiry && now.openedAt == was.openedAt
              && now.checkpoint == (if wrote then Some(checkpoint) else was.checkpoint)
              && now.counter == was.counter + (if wrote then 1 else 0)
      ensures forall other :: other != Lease.KeyText(key) ==> ItemAt(table, other) == ItemAt(old(table), other)
    {
      var item := ItemAt(table, Lease.KeyText(key));
      wrote := item.checkpoint.None?;
      if wrote {
        table := table[Lease.KeyText(key) := item.(checkpoint := Some(checkpoint), counter := item.counter + 1)];
      }
    }

    /** The read, while others run `gap1`, `gap2` and `gap3` between its requests. An answered
        checkpoint was the own row's at one of the read's moments, and the read itself changes
        the table only by the copy, only for the named stream. */
    method Read(key: LeaseKey, gap1: seq<TableOp>, gap2: seq<TableOp>, gap3: seq<TableOp>)
      returns (answer: Result<LeaseState, ReadError>, ghost saw: Moments)
      requires ':' !in key.shard
      requires forall i :: 0 <= i < |gap1| ==> Proper(gap1[i])
      requires forall i :: 0 <= i < |gap2| ==> Proper(gap2[i])
      requires forall i :: 0 <= i < |gap3| ==> Proper(gap3[i])
      modifies this
      ensures saw == MomentsOf(old(table), key, gap1, gap2, gap3)
      ensures answer == ReadAnswer(saw, key, legacyStream)
      ensures table == ReadTable(saw, key, legacyStream)
    {
      saw := MomentsOf(table, key, gap1, gap2, gap3);
      var own := ItemAt(table, Lease.KeyText(key));
      var openedAt := own.openedAt;
      if own.checkpoint.Some? {
        return Success(Lease.LeaseState(own.checkpoint, openedAt)), saw;
      }
      var unread := Lease.LeaseState(None, openedAt);
      if legacyStream.Some? && legacyStream.value != key.stream {
        return Success(unread), saw;
      }
      Interfere(gap1);
      var legacy := ItemAt(table, key.shard).checkpoint;
      if legacy.None? {
        return Success(unread), saw;
      }
      match legacyStream {
        case Some(_) =>
          Interfere(gap2);
          var wrote := Adopt(key, legacy.value);
          if wrote {
            return Success(Lease.LeaseState(legacy, openedAt)), saw;
          }
          Interfere(gap3);
          own := ItemAt(table, Lease.KeyText(key));
          var checkpoint := if own.checkpoint.Some? then own.checkpoint else legacy;
          return Success(Lease.LeaseState(checkpoint, own.openedAt)), saw;
        case None =>
          return Failure(UnattributedLegacyRow(key.shard, key.stream)), saw;
      }
    }
  }

  /** What the read answers, from what its requests saw. */
  function ReadAnswer(saw: Moments, key: LeaseKey, legacyStream: Option<string>): Result<LeaseState, ReadError> {
    var own := Own(saw.first, key);
    var legacy := ItemAt(saw.bare, key.shard).checkpoint;
    if own.checkpoint.Some? || (legacyStream.Some? && legacyStream.value != key.stream) || legacy.None? then
      Success(Lease.LeaseState(own.checkpoint, own.openedAt))
    else if legacyStream.None? then Failure(UnattributedLegacyRow(key.shard, key.stream))
    else if Own(saw.before, key).checkpoint.None? then Success(Lease.LeaseState(legacy, own.openedAt))
    else
      var again := Own(saw.last, key);
      Success(Lease.LeaseState(if again.checkpoint.Some? then again.checkpoint else legacy, again.openedAt))
  }

  /** How far the table has come when the read answers: it stops at the request that decides. */
  function ReadTable(saw: Moments, key: LeaseKey, legacyStream: Option<string>): Table {
    if Own(saw.first, key).checkpoint.Some? || (legacyStream.Some? && legacyStream.value != key.stream) then saw.first
    else if ItemAt(saw.bare, key.shard).checkpoint.None? || legacyStream.None? then saw.bare
    else if Own(saw.before, key).checkpoint.None? then saw.after
    else saw.last
  }

  lemma OwnKeysAreNotShardIds(key: LeaseKey, shard: string)
    requires ':' !in shard
    ensures Lease.KeyText(key) != shard
  {
  }

  /** No operation removes a checkpoint from an own row. */
  lemma {:induction false} CheckpointsStay(table: Table, key: LeaseKey, ops: seq<TableOp>)
    requires forall i :: 0 <= i < |ops| ==> Proper(ops[i])
    requires Own(table, key).checkpoint.Some?
    ensures Own(PerformAll(table, ops), key).checkpoint.Some?
  {
    if ops != [] {
      var init, last := ops[..|ops| - 1], ops[|ops| - 1];
      CheckpointsStay(table, key, init);
      if last.OnBareRow? {
        OwnKeysAreNotShardIds(key, last.shard);
      }
    }
  }

  /** How many of the operations changed the own row of `key`. */
  function RowWrites(key: LeaseKey, ops: seq<TableOp>): nat {
    if ops == [] then 0
    else
      var init := ops[..|ops| - 1];
      RowWrites(key, init) + if Own(PerformAll(map[], init), key) == Own(PerformAll(map[], ops), key) then 0 else 1
  }

  /** The fencing counter is the number of writes the row has seen, copies included. */
  lemma {:induction false} CounterCountsRowWrites(key: LeaseKey, ops: seq<TableOp>)
    requires forall i :: 0 <= i < |ops| ==> Proper(ops[i])
    ensures Own(PerformAll(map[], ops), key).counter == RowWrites(key, ops)
  {
    if ops != [] {
      var init, last := ops[..|ops| - 1], ops[|ops| - 1];
      CounterCountsRowWrites(key, init);
      assert PerformAll(map[], ops) == Perform(PerformAll(map[], init), last);
      match last {
        case OnRow(other, op) =>
          var item := Own(PerformAll(map[], init), other);
          assert Holds(item, op) ==> Updated(item, op).counter == item.counter + 1;
        case Copy(_, _) =>
        case OnBareRow(shard, _) => OwnKeysAreNotShardIds(key, shard);
      }
    }
  }

  /** A copy that lost leaves a row that keeps its checkpoint, so the fallback to the bare row's value
      is never taken. */
  lemma LostCopyFindsACheckpoint(table: Table, key: LeaseKey, gap1: seq<TableOp>, gap2: seq<TableOp>,
                                 gap3: seq<TableOp>)
    requires ':' !in key.shard
    requires forall i :: 0 <= i < |gap3| ==> Proper(gap3[i])
    ensures var saw := MomentsOf(table, key, gap1, gap2, gap3);
            Own(saw.before, key).checkpoint.Some? ==> Own(saw.last, key).checkpoint.Some?
  {
    var saw := MomentsOf(table, key, gap1, gap2, gap3);
    if Own(saw.before, key).checkpoint.Some? {
      assert saw.after == saw.before;
      CheckpointsStay(saw.after, key, gap3);
    }
  }

  /** The read is as good as atomic: for every interleaving, the checkpoint it answers is the own row's
      at its first request or as its last request leaves it, and so is the opening. */
  lemma AnswerWasTheOwnRows(table: Table, key: LeaseKey, legacyStream: Option<string>, gap1: seq<TableOp>,
                            gap2: seq<TableOp>, gap3: seq<TableOp>)
    requires ':' !in key.shard
    requires forall i :: 0 <= i < |gap3| ==> Proper(gap3[i])
    ensures var saw := MomentsOf(table, key, gap1, gap2, gap3);
            var answer := ReadAnswer(saw, key, legacyStream);
            var start, end := Own(table, key), Own(ReadTable(saw, key, legacyStream), key);
            answer.Success? ==>
              && (answer.value.checkpoint == start.checkpoint || answer.value.checkpoint == end.checkpoint)
              && (answer.value.openedAt == start.openedAt || answer.value.openedAt == end.openedAt)
  {
    LostCopyFindsACheckpoint(table, key, gap1, gap2, gap3);
  }

  /** Whether the read makes the copy. */
  predicate MakesTheCopy(saw: Moments, key: LeaseKey, legacyStream: Option<string>) {
    && Own(saw.first, key).checkpoint.None? && legacyStream == Some(key.stream)
    && ItemAt(saw.bare, key.shard).checkpoint.Some? && Own(saw.before, key).checkpoint.None?
  }

  predicate IsStateOf(state: LeaseState, item: Item) {
    state == Lease.StateOf(RowOf(item))
  }

  /** Checkpoint and opening of one answer are the own row's at one moment, its first request or its
      last, exactly unless the read made the copy and the row's opening had changed since its first
      request. */
  lemma AnswerIsOneRowUnless(table: Table, key: LeaseKey, legacyStream: Option<string>, gap1: seq<TableOp>,
                             gap2: seq<TableOp>, gap3: seq<TableOp>)
    requires ':' !in key.shard
    requires forall i :: 0 <= i < |gap3| ==> Proper(gap3[i])
    ensures var saw := MomentsOf(table, key, gap1, gap2, gap3);
            var answer := ReadAnswer(saw, key, legacyStream);
            var end := Own(ReadTable(saw, key, legacyStream), key);
            answer.Success? ==>
              (IsStateOf(answer.value, Own(table, key)) || IsStateOf(answer.value, end)
               <==> !(MakesTheCopy(saw, key, legacyStream)
                      && Own(saw.before, key).openedAt != Own(table, key).openedAt))
  {
    LostCopyFindsACheckpoint(table, key, gap1, gap2, gap3);
  }

  /** And it happens: another owner records an opening between the first request and the copy. */
  lemma AnswerOfTwoRequests() returns (table: Table, key: LeaseKey, gap: seq<TableOp>)
    ensures var saw := MomentsOf(table, key, gap, [], []);
            var answer := ReadAnswer(saw, key, Some(key.stream));
            && MakesTheCopy(saw, key, Some(key.stream))
            && answer == Success(Lease.LeaseState(Some(Lease.Sequence(4)), None))
            && Own(saw.after, key).openedAt == Some(7)
  {
    key := Lease.LeaseKey("s", "shard");
    var held := ABSENT.(owner := Some("a"), expiry := Some(1));
    table := map["shard" := ABSENT.(checkpoint := Some(Lease.Sequence(4))), Lease.KeyText(key) := held];
    OwnKeysAreNotShardIds(key, "shard");
    var op := OnRow(key, Lease.RecordOpenedAt("a", 7));
    gap := [op];
    assert gap[..0] == [];
    assert PerformAll(table, gap) == Perform(table, op);
  }

  /** The copy never overwrites: it leaves a table alone whose own row has a checkpoint, and every
      other row whatever it finds; and it leaves the lease alone: every lease operation is granted after
      it exactly when it was before, and gives the row the same holder and expiry. */
  lemma CopyNeverOverwrites(table: Table, key: LeaseKey, checkpoint: Checkpoint, other: string, op: Op)
    ensures Own(table, key).checkpoint.Some? ==> Copied(table, key, checkpoint) == table
    ensures other != Lease.KeyText(key) ==> ItemAt(Copied(table, key, checkpoint), other) == ItemAt(table, other)
    ensures Own(Copied(table, key, checkpoint), key).openedAt == Own(table, key).openedAt
    ensures Holds(Own(Copied(table, key, checkpoint), key), op) <==> Holds(Own(table, key), op)
    ensures var after, plain := Request(Own(Copied(table, key, checkpoint), key), op), Request(Own(table, key), op);
            after.owner == plain.owner && after.expiry == plain.expiry
  {
  }

  /** The same history without the copies that reads made. */
  function WithoutCopies(ops: seq<TableOp>): seq<TableOp> {
    if ops == [] then []
    else
      var init, last := ops[..|ops| - 1], ops[|ops| - 1];
      WithoutCopies(init) + if last.Copy? then [] else [last]
  }

  /** Two rows under the same lease. */
  predicate SameLease(a: Item, b: Item) {
    a.owner == b.owner && a.expiry == b.expiry && a.openedAt == b.openedAt
  }

  /** Adoption touches no lease: over any history an own row carries an expiry exactly while it carries
      an owner, and holder, expiry and opening are those of the same history without the copies. */
  lemma {:induction false} CopiesTouchNoLease(key: LeaseKey, ops: seq<TableOp>)
    requires forall i :: 0 <= i < |ops| ==> Proper(ops[i])
    ensures Leased(Own(PerformAll(map[], ops), key))
    ensures SameLease(Own(PerformAll(map[], ops), key), Own(PerformAll(map[], WithoutCopies(ops)), key))
  {
    if ops != [] {
      var init, last := ops[..|ops| - 1], ops[|ops| - 1];
      CopiesTouchNoLease(key, init);
      WithoutLast(ops);
      if last.OnBareRow? {
        OwnKeysAreNotShardIds(key, last.shard);
      }
      OneOpOnALease(PerformAll(map[], init), PerformAll(map[], WithoutCopies(init)), key, last);
    }
  }

  lemma WithoutLast(ops: seq<TableOp>)
    requires ops != []
    ensures var init, last := ops[..|ops| - 1], ops[|ops| - 1];
            PerformAll(map[], WithoutCopies(ops))
            == if last.Copy? then PerformAll(map[], WithoutCopies(init))
               else Perform(PerformAll(map[], WithoutCopies(init)), last)
  {
    var init, last := ops[..|ops| - 1], ops[|ops| - 1];
    if last.Copy? {
      assert WithoutCopies(ops) == WithoutCopies(init);
    } else {
      assert WithoutCopies(ops)[..|WithoutCopies(ops)| - 1] == WithoutCopies(init);
    }
  }

  lemma OneOpOnALease(table: Table, plain: Table, key: LeaseKey, op: TableOp)
    requires op.OnBareRow? ==> op.shard != Lease.KeyText(key)
    requires Leased(Own(table, key)) && SameLease(Own(table, key), Own(plain, key))
    ensures Leased(Own(Perform(table, op), key))
    ensures SameLease(Own(Perform(table, op), key), Own(if op.Copy? then plain else Perform(plain, op), key))
  {
  }

  /** For the named stream a bare row's checkpoint does reach the own row: once the read has seen none on
      the own row and one on the bare row, it answers one and leaves one, and unless somebody else wrote
      it meanwhile that is the bare row's. */
  lemma NamedStreamAdopts(table: Table, key: LeaseKey, gap1: seq<TableOp>, gap2: seq<TableOp>, gap3: seq<TableOp>)
    requires ':' !in key.shard
    requires forall i :: 0 <= i < |gap3| ==> Proper(gap3[i])
    ensures var saw := MomentsOf(table, key, gap1, gap2, gap3);
            var answer := ReadAnswer(saw, key, Some(key.stream));
            var legacy := ItemAt(PerformAll(table, gap1), key.shard).checkpoint;
            Own(table, key).checkpoint.None? && legacy.Some? ==>
              && answer.Success? && answer.value.checkpoint.Some?
              && Own(ReadTable(saw, key, Some(key.stream)), key).checkpoint == answer.value.checkpoint
              && (Own(PerformAll(PerformAll(table, gap1), gap2), key).checkpoint.None? ==>
                    answer.value.checkpoint == legacy)
  {
    LostCopyFindsACheckpoint(table, key, gap1, gap2, gap3);
  }

  /** Bare rows reach only the stream the operator named: a read for another stream answers its own
      row as it first saw it and writes nothing, whatever the bare rows hold; with no stream named,
      a bare row with a checkpoint refuses the read and is never copied. */
  lemma BareRowsReachOnlyTheNamedStream(table: Table, key: LeaseKey, legacyStream: Option<string>,
                                        gap1: seq<TableOp>, gap2: seq<TableOp>, gap3: seq<TableOp>)
    requires legacyStream != Some(key.stream)
    ensures var saw := MomentsOf(table, key, gap1, gap2, gap3);
            var answer := ReadAnswer(saw, key, legacyStream);
            && (answer.Success? ==> answer.value == Lease.StateOf(RowOf(Own(table, key))))
            && (answer.Failure? <==> legacyStream.None? && Own(table, key).checkpoint.None?
                                     && ItemAt(PerformAll(table, gap1), key.shard).checkpoint.Some?)
            && (ReadTable(saw, key, legacyStream) == table
                || ReadTable(saw, key, legacyStream) == PerformAll(table, gap1))
  {
  }
}
