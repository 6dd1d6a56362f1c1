/** Every shard's row is what the lease contract makes of the calls that took effect on it, whoever made
    them: so all that is proved of lease histories holds of the rows that a run of the stream passes. */
module LeaseCalls {
  import opened Wrappers
  import opened Cursor
  import Lease
  import opened ShardProtocol
  import opened ShardSafety
  import opened Coordination
  import opened Readings

  type Owner = Lease.Owner
  type Op = Lease.Op

  /** The store call of a reader's step, if it makes one and that takes effect: one per renewal, one
      for the place a reading opens at, one for the end mark, one when it is done. */
  function CallOfReader(r: Reader, step: ReaderStep): Option<Op> {
    match step
    case RenewLease(now, ttl, lands, _) => if lands then Some(Op.Renew(r.owner, now, ttl)) else None
    case RecordOpening(lands, _) => if lands then Some(Op.RecordOpenedAt(r.owner, r.position)) else None
    case MarkEnd(lands) => if lands then Some(Op.SaveCheckpoint(r.owner, Lease.ShardEnd)) else None
    case ReleaseLease(lands) => if lands then Some(Op.Release(r.owner)) else None
    case _ => None
  }

  function CallOfAction(s: Shard, a: Action): Option<Op> {
    match a
    case ByReader(id, step) => if id < |s.readers| then CallOfReader(s.readers[id], step) else None
    case LandWrite(owner, sequence) => Some(Op.SaveCheckpoint(owner, Lease.Sequence(sequence)))
    case _ => None
  }

  /** The call a step of the stream makes on the shard's row, if that takes effect. */
  function CallOf(sys: System, step: Step, id: ShardId): Option<Op> {
    if id !in sys.shards then None
    else
      match step
      case OnShard(at, action) => if at == id then CallOfAction(sys.shards[id], action) else None
      case AcquireLease(owner, now, ttl, lands, _) =>
        if lands && owner in sys.coordinators && sys.coordinators[owner].Cleared? && sys.coordinators[owner].shard == id
        then Some(Op.Acquire(owner, now, ttl)) else None
      case _ => None
  }

  function Apply(row: Lease.Row, call: Option<Op>): Lease.Row {
    if call.Some? then Lease.Apply(row, call.value) else row
  }

  /** The calls that took effect on the shard's row in the first `n` steps. */
  function Calls(steps: seq<Step>, states: seq<System>, n: nat, id: ShardId): seq<Op>
    requires n <= |steps| < |states|
  {
    if n == 0 then []
    else
      var earlier, call := Calls(steps, states, n - 1, id), CallOf(states[n - 1], steps[n - 1], id);
      if call.Some? then earlier + [call.value] else earlier
  }

  lemma ReaderMakesTheCall(s: Shard, id: nat, step: ReaderStep)
    requires s.keeps && Enabled(s, ByReader(id, step))
    ensures DoReader(s, id, step).row == Apply(s.row, CallOfReader(s.readers[id], step))
  {
  }

  lemma ActionMakesTheCall(s: Shard, a: Action)
    requires s.keeps && Enabled(s, a) && !a.TakeLease?
    ensures Do(s, a).row == Apply(s.row, CallOfAction(s, a))
  {
    if a.ByReader? {
      ReaderMakesTheCall(s, a.id, a.step);
    }
  }

  lemma StepMakesTheCall(steps: seq<Step>, states: seq<System>, n: nat, id: ShardId)
    requires IsRun(steps, states) && n < |steps| && id in states[n].shards
    ensures id in states[n + 1].shards
    ensures states[n + 1].shards[id].row == Apply(states[n].shards[id].row, CallOf(states[n], steps[n], id))
  {
    var sys, step := states[n], steps[n];
    assert Possible(sys, step);
    ShardMovesInRun(steps, states, n, id);
    var a := ActionOn(sys, step, id);
    if a.Some? && !a.value.TakeLease? {
      ActionMakesTheCall(sys.shards[id], a.value);
    }
  }

  lemma AfterOneMore(calls: seq<Op>, call: Op)
    ensures Lease.After(calls + [call]) == Lease.Apply(Lease.After(calls), call)
  {
    assert (calls + [call])[..|calls|] == calls;
  }

  lemma RowGoesOn(steps: seq<Step>, states: seq<System>, n: nat, id: ShardId)
    requires IsRun(steps, states) && n < |steps| && id in states[n].shards
    requires states[n].shards[id].row == Lease.After(Calls(steps, states, n, id))
    ensures id in states[n + 1].shards
    ensures states[n + 1].shards[id].row == Lease.After(Calls(steps, states, n + 1, id))
  {
    StepMakesTheCall(steps, states, n, id);
    var call := CallOf(states[n], steps[n], id);
    if call.Some? {
      AfterOneMore(Calls(steps, states, n, id), call.value);
    }
  }

  /** In every state of every run a shard's row is the contract's row for the calls made so far. */
  lemma {:induction false} RowFollowsTheContract(steps: seq<Step>, states: seq<System>, n: nat, id: ShardId)
    requires IsRun(steps, states) && n < |states|
    ensures if id in states[n].shards then states[n].shards[id].row == Lease.After(Calls(steps, states, n, id))
            else Calls(steps, states, n, id) == []
  {
    if n > 0 {
      RowFollowsTheContract(steps, states, n - 1, id);
      if id in states[n - 1].shards {
        RowGoesOn(steps, states, n - 1, id);
      } else if id in states[n].shards {
        NewShardIsFresh(steps, states, n - 1, id);
      }
    }
  }

  /** So a shard changes hands only by a release, or past the expiry that its holder wrote last, by the
      taker's clock. */
  lemma TakenOverOnlyPastExpiry(steps: seq<Step>, states: seq<System>, n: nat, id: ShardId, holder: Owner)
    returns (i: nat)
    requires IsRun(steps, states) && n < |steps| && id in states[n].shards && id in states[n + 1].shards
    requires states[n].shards[id].row.owner == Some(holder)
    requires states[n + 1].shards[id].row.owner != Some(holder)
    ensures CallOf(states[n], steps[n], id).Some?
    ensures var calls, call := Calls(steps, states, n, id), CallOf(states[n], steps[n], id).value;
            || call == Op.Release(holder)
            || (&& call.Acquire? && call.owner != holder && states[n + 1].shards[id].row.owner == Some(call.owner)
                && Lease.LastExpiryWrite(calls, |calls|, i) && calls[i].owner == holder
                && calls[i].now + calls[i].ttl <= call.now)
  {
    i := 0;
    RowFollowsTheContract(steps, states, n, id);
    StepMakesTheCall(steps, states, n, id);
    var calls, call := Calls(steps, states, n, id), CallOf(states[n], steps[n], id).value;
    if call != Op.Release(holder) {
      var longer := calls + [call];
      assert longer[..|calls|] == calls;
      i := Lease.StealOnlyPastExpiry(longer, |calls|, holder, call.owner);
      assert calls[..|calls|] == calls;
      PrefixWrites(calls, longer, i);
    }
  }

  lemma PrefixWrites(calls: seq<Op>, longer: seq<Op>, i: nat)
    requires calls <= longer && Lease.LastExpiryWrite(longer, |calls|, i)
    ensures Lease.LastExpiryWrite(calls, |calls|, i)
  {
    forall j | 0 <= j < |calls|
      ensures Lease.WritesExpiry(longer, j) <==> Lease.WritesExpiry(calls, j)
    {
      assert longer[..j] == calls[..j];
    }
  }

  /** And a release leaves it to whoever comes next. */
  lemma ReleasedShardIsFree(steps: seq<Step>, states: seq<System>, n: nat, id: ShardId, reader: nat, next: Owner,
                            now: nat, ttl: nat)
    requires IsRun(steps, states) && n < |steps|
    requires steps[n] == OnShard(id, ByReader(reader, ReleaseLease(true)))
    ensures id in states[n].shards && reader < |states[n].shards[id].readers| && id in states[n + 1].shards
    ensures var owner := states[n].shards[id].readers[reader].owner;
            var was, row := states[n].shards[id].row, states[n + 1].shards[id].row;
            && row.checkpoint == was.checkpoint && row.openedAt == was.openedAt
            && row.owner != Some(owner)
            && (was.owner == Some(owner) ==> Lease.Granted(row, Op.Acquire(next, now, ttl)))
  {
    assert Possible(states[n], steps[n]);
    StepMakesTheCall(steps, states, n, id);
  }
}
