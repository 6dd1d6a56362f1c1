/** Where readers read, over runs of the whole stream with any number of instances, crashes and stolen
    leases, when the store keeps the recorded opening. */
module Readings {
  import opened Wrappers
  import opened Cursor
  import opened Tracking
  import opened Lease
  import opened ShardProtocol
  import opened ShardSafety
  import opened Coordination

  // ----- What a step of the stream is to one shard -----

  /** The action the step takes on the shard, if it takes one. */
  function ActionOn(sys: System, step: Step, id: ShardId): Option<Action> {
    match step
    case OnShard(at, action) => if at == id then Some(action) else None
    case AcquireLease(owner, now, ttl, lands, _) =>
      if lands && owner in sys.coordinators && !sys.coordinators[owner].Idle? && sys.coordinators[owner].shard == id
      then Some(TakeLease(owner, now, ttl)) else None
    case StartReader(owner) =>
      if owner in sys.coordinators && sys.coordinators[owner].Holding? && sys.coordinators[owner].shard == id
      then Some(Spawn(owner, LineageOf(sys.coordinators[owner].sawEnd), sys.coordinators[owner].sawEnd)) else None
    case ForgetReader(_, at, reader) => if at == id then Some(Forget(reader)) else None
    case CrashInstance(owner) => Some(Crash(owner))
    case _ => None
  }

  ghost predicate ShardTakes(s: Shard, a: Option<Action>, s': Shard) {
    if a.None? then s' == s else Enabled(s, a.value) && s' == Do(s, a.value)
  }

  lemma ShardMoves(sys: System, step: Step, id: ShardId)
    requires SystemInv(sys) && Possible(sys, step) && id in sys.shards
    ensures id in Next(sys, step).shards
    ensures ShardTakes(sys.shards[id], ActionOn(sys, step, id), Next(sys, step).shards[id])
  {
    if step.AcquireLease? || step.StartReader? {
      CoordinatorMoves(sys, step, id);
    } else if step.OnShard? || step.ForgetReader? || step.CrashInstance? {
      ActionMoves(sys, step, id);
    } else {
      VettingMoves(sys, step, id);
    }
  }

  lemma ActionMoves(sys: System, step: Step, id: ShardId)
    requires Possible(sys, step) && id in sys.shards && (step.OnShard? || step.ForgetReader? || step.CrashInstance?)
    ensures id in Next(sys, step).shards
    ensures ShardTakes(sys.shards[id], ActionOn(sys, step, id), Next(sys, step).shards[id])
  {
  }

  lemma VettingMoves(sys: System, step: Step, id: ShardId)
    requires Possible(sys, step) && id in sys.shards
    requires step.AddShard? || step.Join? || step.Consider? || step.CheckParent? || step.ReadOwnRow?
    ensures ActionOn(sys, step, id).None?
    ensures id in Next(sys, step).shards && Next(sys, step).shards[id] == sys.shards[id]
  {
  }

  lemma CoordinatorMoves(sys: System, step: Step, id: ShardId)
    requires SystemInv(sys) && Possible(sys, step) && id in sys.shards && (step.AcquireLease? || step.StartReader?)
    ensures id in Next(sys, step).shards
    ensures ShardTakes(sys.shards[id], ActionOn(sys, step, id), Next(sys, step).shards[id])
  {
    var c := sys.coordinators[step.owner];
    if step.AcquireLease? {
      CoordinatorHasNoReader(sys, step.owner, step.now, step.ttl, Opens, {});
    } else {
      CoordinatorHasNoReader(sys, step.owner, 0, 0, LineageOf(c.sawEnd), c.sawEnd);
    }
  }

  lemma ShardMovesInRun(steps: seq<Step>, states: seq<System>, n: nat, id: ShardId)
    requires IsRun(steps, states) && n < |steps| && id in states[n].shards
    ensures id in states[n + 1].shards && SystemInv(states[n])
    ensures ShardTakes(states[n].shards[id], ActionOn(states[n], steps[n], id), states[n + 1].shards[id])
  {
    RunKeeps(steps, states, n);
    var sys, step := states[n], steps[n];
    assert Possible(sys, step) && states[n + 1] == Next(sys, step);
    ShardMoves(sys, step, id);
  }

  /** A shard that was not there before has no readers. */
  lemma NewShardIsFresh(steps: seq<Step>, states: seq<System>, n: nat, id: ShardId)
    requires IsRun(steps, states) && n < |steps| && id !in states[n].shards && id in states[n + 1].shards
    ensures Fresh(states[n + 1].shards[id])
  {
    RunKeeps(steps, states, n);
    var sys, step := states[n], steps[n];
    assert Possible(sys, step) && states[n + 1] == Next(sys, step);
  }

  // ----- The reader's own steps, and everybody else's -----

  /** The reader does this itself. */
  predicate Steps(a: Option<Action>, reader: nat) {
    a.Some? && a.value.ByReader? && a.value.id == reader
  }

  /** What others do to a reader: an acknowledgement marks its watermark, and its process may die. */
  ghost predicate LeftAlone(r: Reader, r': Reader) {
    r' == r.(track := r'.track, phase := r'.phase) && (r'.phase == r.phase || r'.phase == Forgotten)
  }

  lemma OthersLeaveTheReader(s: Shard, a: Option<Action>, s': Shard, reader: nat)
    requires ShardTakes(s, a, s') && !Steps(a, reader) && reader < |s.readers|
    ensures reader < |s'.readers| && LeftAlone(s.readers[reader], s'.readers[reader])
  {
    if a.Some? {
      match a.value {
        case ByReader(other, step) => OtherReaderLeaves(s, other, step, reader);
        case Settle(id, index) => SettleLeaves(s, id, index, reader);
        case _ =>
      }
    }
  }

  lemma OtherReaderLeaves(s: Shard, other: nat, step: ReaderStep, reader: nat)
    requires Enabled(s, ByReader(other, step)) && other != reader && reader < |s.readers|
    ensures reader < |DoReader(s, other, step).readers| && DoReader(s, other, step).readers[reader] == s.readers[reader]
  {
    MovedIsSame(s, s.readers[other], step);
  }

  lemma SettleLeaves(s: Shard, id: nat, index: nat, reader: nat)
    requires id < |s.readers| && index < |s.readers[id].track.deliveries| && reader < |s.readers|
    ensures reader < |DoSettle(s, id, index).readers|
    ensures LeftAlone(s.readers[reader], DoSettle(s, id, index).readers[reader])
  {
  }

  lemma NewReadersOpen(s: Shard, a: Option<Action>, s': Shard, reader: nat)
    requires ShardTakes(s, a, s') && |s.readers| <= reader < |s'.readers|
    ensures s'.readers[reader].phase == Opening(false)
  {
    if a.Some? {
      ReadersCarryOn(s, a.value);
    }
  }

  // ----- A reader opens where the row said when it read it -----

  ghost predicate Alone(steps: seq<Step>, states: seq<System>, from: nat, to: nat, id: ShardId, reader: nat)
    requires to <= |steps| < |states|
  {
    forall k {:trigger steps[k]} :: from < k < to ==> !Steps(ActionOn(states[k], steps[k], id), reader)
  }

  /** The step at which the reader read the row it goes by. */
  ghost predicate ReadAt(steps: seq<Step>, states: seq<System>, m: nat, n: nat, id: ShardId, reader: nat,
                         seen: LeaseState)
    requires n <= |steps| < |states|
  {
    && m < n && steps[m] == OnShard(id, ByReader(reader, ReadRow(true)))
    && id in states[m].shards && seen == StateOf(states[m].shards[id].row)
    && Alone(steps, states, m, n, id, reader)
  }

  lemma ReadIsRemembered(s: Shard, reader: nat, step: ReaderStep, seen: LeaseState, again: bool)
    requires Enabled(s, ByReader(reader, step))
    requires DoReader(s, reader, step).readers[reader].phase == Fetching(again, seen)
    ensures step == ReadRow(true) && seen == StateOf(s.row)
  {
  }

  /** A reader about to fetch its iterator goes by the row as it read it last. */
  lemma {:induction false} FetchFollowsARead(steps: seq<Step>, states: seq<System>, n: nat, id: ShardId, reader: nat)
    returns (m: nat)
    requires IsRun(steps, states) && n < |states| && id in states[n].shards && reader < |states[n].shards[id].readers|
    requires states[n].shards[id].readers[reader].phase.Fetching?
    ensures ReadAt(steps, states, m, n, id, reader, states[n].shards[id].readers[reader].phase.seen)
    decreases n
  {
    m := n - 1;
    var before := FetchingBefore(steps, states, n, id, reader);
    if before {
      m := FetchFollowsARead(steps, states, n - 1, id, reader);
      StillReadAt(steps, states, m, n - 1, id, reader, states[n].shards[id].readers[reader].phase.seen);
    }
  }

  lemma StillReadAt(steps: seq<Step>, states: seq<System>, m: nat, n: nat, id: ShardId, reader: nat, seen: LeaseState)
    requires n < |steps| < |states| && ReadAt(steps, states, m, n, id, reader, seen)
    requires !Steps(ActionOn(states[n], steps[n], id), reader)
    ensures ReadAt(steps, states, m, n + 1, id, reader, seen)
  {
  }

  lemma FetchingBefore(steps: seq<Step>, states: seq<System>, n: nat, id: ShardId, reader: nat) returns (before: bool)
    requires IsRun(steps, states) && n < |states| && id in states[n].shards && reader < |states[n].shards[id].readers|
    requires states[n].shards[id].readers[reader].phase.Fetching?
    ensures n > 0 && id in states[n - 1].shards && reader < |states[n - 1].shards[id].readers|
    ensures before ==>
              && states[n - 1].shards[id].readers[reader].phase == states[n].shards[id].readers[reader].phase
              && !Steps(ActionOn(states[n - 1], steps[n - 1], id), reader)
    ensures !before ==>
              ReadAt(steps, states, n - 1, n, id, reader, states[n].shards[id].readers[reader].phase.seen)
  {
    assert n > 0;
    if id !in states[n - 1].shards {
      NewShardIsFresh(steps, states, n - 1, id);
      assert false;
    }
    ShardMovesInRun(steps, states, n - 1, id);
    var s, s' := states[n - 1].shards[id], states[n].shards[id];
    var a := ActionOn(states[n - 1], steps[n - 1], id);
    if |s.readers| <= reader {
      NewReadersOpen(s, a, s', reader);
      assert false;
    }
    before := !Steps(a, reader);
    if before {
      OthersLeaveTheReader(s, a, s', reader);
    } else {
      ReadIsRemembered(s, reader, a.value.step, s'.readers[reader].phase.seen, s'.readers[reader].phase.again);
    }
  }

  /** So every iterator, of a new reader, after a takeover or after an expiry, starts where the row and
      the reader said, exactly: right after the checkpoint that the row had when it was read, or at its
      recorded opening, or where the reader was to start. */
  lemma EveryIteratorStartsRightly(steps: seq<Step>, states: seq<System>, n: nat, id: ShardId, reader: nat, at: nat,
                                   installed: Option<StreamStart>)
    returns (m: nat)
    requires IsRun(steps, states) && n < |steps|
    requires steps[n] == OnShard(id, ByReader(reader, Fetch(Iterator(at), installed)))
    ensures id in states[n].shards && reader < |states[n].shards[id].readers| && m < n && id in states[m].shards
    ensures var r := states[n].shards[id].readers[reader];
            && ReadAt(steps, states, m, n, id, reader, StateOf(states[m].shards[id].row))
            && StartsRightly(StateOf(states[m].shards[id].row), r.rewind, r.lineage, installed,
                             |states[n].shards[id].log|, at)
    ensures id in states[n + 1].shards && reader < |states[n + 1].shards[id].readers|
            && states[n + 1].shards[id].readers[reader].position == at
  {
    assert Possible(states[n], steps[n]);
    m := FetchFollowsARead(steps, states, n, id, reader);
    ShardMovesInRun(steps, states, n, id);
    IteratorStartsRightly(states[n].shards[id], states[n].shards[id].readers[reader], at, installed);
  }

  // ----- An iterator that cannot be fetched again -----

  /** The same reading: at the same place, under the same cursor, with the same opening to record. */
  predicate SamePlace(r: Reader, r': Reader) {
    r' == r.(track := r'.track, phase := r'.phase)
  }

  predicate Refetching(p: Phase) {
    (p.Opening? || p.Fetching?) && p.again
  }

  ghost predicate ExpiredAt(steps: seq<Step>, states: seq<System>, m: nat, id: ShardId, reader: nat, r: Reader)
    requires |steps| < |states|
  {
    && m < |steps| && steps[m] == OnShard(id, ByReader(reader, ExpireIterator))
    && id in states[m].shards && reader < |states[m].shards[id].readers|
    && states[m].shards[id].readers[reader].phase.Reading? && SamePlace(states[m].shards[id].readers[reader], r)
  }

  lemma RefetchBegins(s: Shard, reader: nat, step: ReaderStep)
    requires Enabled(s, ByReader(reader, step)) && Refetching(DoReader(s, reader, step).readers[reader].phase)
    ensures SamePlace(s.readers[reader], DoReader(s, reader, step).readers[reader])
    ensures Refetching(s.readers[reader].phase) || (step.ExpireIterator? && s.readers[reader].phase.Reading?)
  {
  }

  lemma RefetchOneStepBack(s: Shard, a: Option<Action>, s': Shard, reader: nat)
    requires ShardTakes(s, a, s') && reader < |s'.readers| && Refetching(s'.readers[reader].phase)
    ensures reader < |s.readers| && SamePlace(s.readers[reader], s'.readers[reader])
    ensures || Refetching(s.readers[reader].phase)
            || (a == Some(ByReader(reader, ExpireIterator)) && s.readers[reader].phase.Reading?)
  {
    if |s.readers| <= reader {
      NewReadersOpen(s, a, s', reader);
      assert false;
    }
    if Steps(a, reader) {
      RefetchBegins(s, reader, a.value.step);
    } else {
      OthersLeaveTheReader(s, a, s', reader);
    }
  }

  lemma OnlyItsOwnStepMovesIt(sys: System, step: Step, id: ShardId, reader: nat, own: ReaderStep)
    requires ActionOn(sys, step, id) == Some(ByReader(reader, own))
    ensures step == OnShard(id, ByReader(reader, own))
  {
  }

  lemma RefetchOneStepBackInRun(steps: seq<Step>, states: seq<System>, n: nat, id: ShardId, reader: nat)
    requires IsRun(steps, states) && n < |steps| && id in states[n].shards && id in states[n + 1].shards
    requires reader < |states[n + 1].shards[id].readers| && Refetching(states[n + 1].shards[id].readers[reader].phase)
    ensures reader < |states[n].shards[id].readers|
    ensures SamePlace(states[n].shards[id].readers[reader], states[n + 1].shards[id].readers[reader])
    ensures || Refetching(states[n].shards[id].readers[reader].phase)
            || (steps[n] == OnShard(id, ByReader(reader, ExpireIterator))
                && states[n].shards[id].readers[reader].phase.Reading?)
  {
    ShardMovesInRun(steps, states, n, id);
    var a := ActionOn(states[n], steps[n], id);
    RefetchOneStepBack(states[n].shards[id], a, states[n + 1].shards[id], reader);
    if a == Some(ByReader(reader, ExpireIterator)) {
      OnlyItsOwnStepMovesIt(states[n], steps[n], id, reader, ExpireIterator);
    }
  }

  /** While a reader fetches anew it is where it was when its iterator expired. */
  lemma {:induction false} RefetchFollowsAnExpiry(steps: seq<Step>, states: seq<System>, n: nat, id: ShardId, reader: nat)
    returns (m: nat)
    requires IsRun(steps, states) && n < |states| && id in states[n].shards && reader < |states[n].shards[id].readers|
    requires Refetching(states[n].shards[id].readers[reader].phase)
    ensures m < n && ExpiredAt(steps, states, m, id, reader, states[n].shards[id].readers[reader])
    decreases n
  {
    m := n - 1;
    var before := RefetchingBefore(steps, states, n, id, reader);
    if before {
      m := RefetchFollowsAnExpiry(steps, states, n - 1, id, reader);
    }
  }

  lemma RefetchingBefore(steps: seq<Step>, states: seq<System>, n: nat, id: ShardId, reader: nat) returns (before: bool)
    requires IsRun(steps, states) && n < |states| && id in states[n].shards && reader < |states[n].shards[id].readers|
    requires Refetching(states[n].shards[id].readers[reader].phase)
    ensures n > 0 && id in states[n - 1].shards && reader < |states[n - 1].shards[id].readers|
    ensures SamePlace(states[n - 1].shards[id].readers[reader], states[n].shards[id].readers[reader])
    ensures before ==> Refetching(states[n - 1].shards[id].readers[reader].phase)
    ensures !before ==>
              ExpiredAt(steps, states, n - 1, id, reader, states[n].shards[id].readers[reader])
  {
    assert n > 0;
    if id !in states[n - 1].shards {
      NewShardIsFresh(steps, states, n - 1, id);
      assert false;
    }
    RefetchOneStepBackInRun(steps, states, n - 1, id, reader);
    before := Refetching(states[n - 1].shards[id].readers[reader].phase);
  }

  lemma UnansweredReadsOn(s: Shard, reader: nat, step: ReaderStep)
    requires Enabled(s, ByReader(reader, step)) && Refetching(s.readers[reader].phase)
    requires step == ReadRow(false) || (step.Fetch? && step.answer.NoAnswer?)
    ensures DoReader(s, reader, step).readers[reader] == s.readers[reader].(phase := Reading)
  {
  }

  /** A reader whose iterator expired, and which cannot fetch a new one, reads on from where it was: the
      attempt leaves it at the place, the cursor and the opening of the expiry. */
  lemma FailedRefetchReadsOn(steps: seq<Step>, states: seq<System>, n: nat, id: ShardId, reader: nat, step: ReaderStep)
    returns (m: nat)
    requires IsRun(steps, states) && n < |steps| && steps[n] == OnShard(id, ByReader(reader, step))
    requires step == ReadRow(false) || (step.Fetch? && step.answer.NoAnswer?)
    requires id in states[n].shards && reader < |states[n].shards[id].readers|
    requires Refetching(states[n].shards[id].readers[reader].phase)
    ensures m < n && id in states[n + 1].shards && reader < |states[n + 1].shards[id].readers|
    ensures states[n + 1].shards[id].readers[reader].phase.Reading?
    ensures ExpiredAt(steps, states, m, id, reader, states[n + 1].shards[id].readers[reader])
  {
    m := RefetchFollowsAnExpiry(steps, states, n, id, reader);
    ShardMovesInRun(steps, states, n, id);
    UnansweredReadsOn(states[n].shards[id], reader, step);
  }

  // ----- A reader that is fenced stops -----

  predicate Stopping(p: Phase) {
    p.Stopped? || p.Forgotten?
  }

  lemma StoppedIsNotReady(s: Shard, r: Reader, step: ReaderStep)
    requires Stopping(r.phase)
    ensures !Ready(s, r, step)
  {
  }

  lemma StoppedStays(s: Shard, a: Option<Action>, s': Shard, reader: nat)
    requires ShardTakes(s, a, s') && reader < |s.readers| && Stopping(s.readers[reader].phase)
    ensures !Steps(a, reader)
    ensures reader < |s'.readers| && Stopping(s'.readers[reader].phase)
  {
    if Steps(a, reader) {
      StoppedIsNotReady(s, s.readers[reader], a.value.step);
    } else {
      OthersLeaveTheReader(s, a, s', reader);
    }
  }

  ghost predicate HasStopped(sys: System, id: ShardId, reader: nat) {
    id in sys.shards && reader < |sys.shards[id].readers| && Stopping(sys.shards[id].readers[reader].phase)
  }

  lemma {:induction false} StoppedForGood(steps: seq<Step>, states: seq<System>, m: nat, n: nat, id: ShardId, reader: nat)
    requires IsRun(steps, states) && m <= n < |states| && HasStopped(states[m], id, reader)
    ensures HasStopped(states[n], id, reader)
    decreases n
  {
    if m < n {
      StoppedForGood(steps, states, m, n - 1, id, reader);
      StoppedOneStep(steps, states, n - 1, id, reader);
    }
  }

  lemma StoppedOneStep(steps: seq<Step>, states: seq<System>, n: nat, id: ShardId, reader: nat)
    requires IsRun(steps, states) && n < |steps| && HasStopped(states[n], id, reader)
    ensures !Steps(ActionOn(states[n], steps[n], id), reader)
    ensures HasStopped(states[n + 1], id, reader)
  {
    ShardMovesInRun(steps, states, n, id);
    StoppedStays(states[n].shards[id], ActionOn(states[n], steps[n], id), states[n + 1].shards[id], reader);
  }

  /** A reader's store call that finds another owner in the row, or is not answered. */
  predicate Fenced(s: Shard, r: Reader, step: ReaderStep) {
    || (step.RenewLease? && (!step.lands || !step.heard || s.row.owner != Some(r.owner)))
    || (step.RecordOpening? && (!step.lands || !step.heard || s.row.owner != Some(r.owner)))
  }

  lemma FencedStops(s: Shard, reader: nat, step: ReaderStep)
    requires Enabled(s, ByReader(reader, step)) && Fenced(s, s.readers[reader], step)
    ensures Stopping(DoReader(s, reader, step).readers[reader].phase)
    ensures DoReader(s, reader, step).handed == s.handed
  {
  }

  /** Once a renewal or the recording of its opening finds the lease with another owner, a reader never
      takes a step again, so it hands nothing more out. */
  lemma FencedReaderStops(steps: seq<Step>, states: seq<System>, m: nat, n: nat, id: ShardId, reader: nat,
                          step: ReaderStep)
    requires IsRun(steps, states) && m < n < |steps| && steps[m] == OnShard(id, ByReader(reader, step))
    requires id in states[m].shards && reader < |states[m].shards[id].readers|
    requires Fenced(states[m].shards[id], states[m].shards[id].readers[reader], step)
    ensures !Steps(ActionOn(states[n], steps[n], id), reader)
  {
    ShardMovesInRun(steps, states, m, id);
    FencedStops(states[m].shards[id], reader, step);
    StoppedForGood(steps, states, m + 1, n, id, reader);
    StoppedOneStep(steps, states, n, id, reader);
  }

  lemma EndStops(s: Shard, reader: nat)
    requires Enabled(s, ByReader(reader, ReadRow(true))) && s.row.checkpoint == Some(ShardEnd)
    ensures DoReader(s, reader, ReadRow(true)).readers[reader].phase == Stopped(None)
  {
  }

  /** A reader that finds its shard finished stops for good, and hands no cursor on. */
  lemma FinishedShardIsNotRead(steps: seq<Step>, states: seq<System>, m: nat, n: nat, id: ShardId, reader: nat)
    requires IsRun(steps, states) && m < n < |steps| && steps[m] == OnShard(id, ByReader(reader, ReadRow(true)))
    requires id in states[m].shards && reader < |states[m].shards[id].readers|
    requires states[m].shards[id].row.checkpoint == Some(ShardEnd)
    ensures id in states[m + 1].shards && reader < |states[m + 1].shards[id].readers|
    ensures states[m + 1].shards[id].readers[reader].phase == Stopped(None)
    ensures !Steps(ActionOn(states[n], steps[n], id), reader)
  {
    ShardMovesInRun(steps, states, m, id);
    EndStops(states[m].shards[id], reader);
    StoppedForGood(steps, states, m + 1, n, id, reader);
    StoppedOneStep(steps, states, n, id, reader);
  }

  // ----- A reader that leaves while it holds the lease releases it -----

  /** The steps with which a reader that was not fenced ends. */
  predicate Leaves(step: ReaderStep) {
    step.GiveUp? || step.LoseStream? || step.MarkEnd? || step == CloseChannel(true)
  }

  /** Only a reader that gives up has a cursor for the next one. */
  function HandOffOf(r: Reader, step: ReaderStep): Option<ShardStart> {
    if step.GiveUp? then r.rewind else None
  }

  predicate IsReleasing(s: Shard, reader: nat, handOff: Option<ShardStart>) {
    && reader < |s.readers|
    && (s.readers[reader].phase == Releasing(handOff) || s.readers[reader].phase == Forgotten)
  }

  lemma LeavingReleases(s: Shard, reader: nat, step: ReaderStep)
    requires Enabled(s, ByReader(reader, step)) && Leaves(step)
    ensures IsReleasing(DoReader(s, reader, step), reader, HandOffOf(s.readers[reader], step))
  {
  }

  lemma ReleaseIsNext(s: Shard, reader: nat, step: ReaderStep, handOff: Option<ShardStart>)
    requires Enabled(s, ByReader(reader, step)) && IsReleasing(s, reader, handOff)
    ensures step.ReleaseLease? && DoReader(s, reader, step).readers[reader].phase == Stopped(handOff)
  {
  }

  lemma {:induction false} StillReleasing(steps: seq<Step>, states: seq<System>, m: nat, n: nat, id: ShardId, reader: nat,
                                          handOff: Option<ShardStart>)
    requires IsRun(steps, states) && m < n < |states| && Alone(steps, states, m, n, id, reader)
    requires id in states[m + 1].shards && IsReleasing(states[m + 1].shards[id], reader, handOff)
    ensures id in states[n].shards && IsReleasing(states[n].shards[id], reader, handOff)
    decreases n
  {
    if m + 1 < n {
      StillReleasing(steps, states, m, n - 1, id, reader, handOff);
      ShardMovesInRun(steps, states, n - 1, id);
      var a := ActionOn(states[n - 1], steps[n - 1], id);
      OthersLeaveTheReader(states[n - 1].shards[id], a, states[n].shards[id], reader);
    }
  }

  /** A reader that gives up, loses the stream, reaches the end, or finds its subscription dropped between
      two reads releases the lease with its next step, unless its process dies first, and stops; it hands
      on its cursor if it gave up, and nothing otherwise. */
  lemma LeavingReleasesTheLease(steps: seq<Step>, states: seq<System>, m: nat, n: nat, id: ShardId, reader: nat,
                                step: ReaderStep, next: ReaderStep)
    requires IsRun(steps, states) && m < n < |steps| && Alone(steps, states, m, n, id, reader)
    requires steps[m] == OnShard(id, ByReader(reader, step)) && Leaves(step)
    requires steps[n] == OnShard(id, ByReader(reader, next))
    ensures id in states[m].shards && reader < |states[m].shards[id].readers|
    ensures id in states[n + 1].shards && reader < |states[n + 1].shards[id].readers|
    ensures next.ReleaseLease?
    ensures states[n + 1].shards[id].readers[reader].phase
            == Stopped(HandOffOf(states[m].shards[id].readers[reader], step))
  {
    assert Possible(states[m], steps[m]) && Possible(states[n], steps[n]);
    var handOff := HandOffOf(states[m].shards[id].readers[reader], step);
    ReleasingAfter(steps, states, m, id, reader, step);
    StillReleasing(steps, states, m, n, id, reader, handOff);
    ShardMovesInRun(steps, states, n, id);
    ReleaseIsNext(states[n].shards[id], reader, next, handOff);
  }

  lemma ReleasingAfter(steps: seq<Step>, states: seq<System>, m: nat, id: ShardId, reader: nat, step: ReaderStep)
    requires IsRun(steps, states) && m < |steps| && steps[m] == OnShard(id, ByReader(reader, step)) && Leaves(step)
    requires id in states[m].shards && reader < |states[m].shards[id].readers|
    ensures id in states[m + 1].shards
    ensures IsReleasing(states[m + 1].shards[id], reader, HandOffOf(states[m].shards[id].readers[reader], step))
  {
    ShardMovesInRun(steps, states, m, id);
    LeavingReleases(states[m].shards[id], reader, step);
  }

  // ----- Reading from one place on -----

  /** A subscription whose readers open at one place of the shard: the first record, or where the service
      puts the timestamp, the same record whenever it is asked. */
  predicate OpensAt(cursor: StreamStart, place: nat) {
    cursor.Timestamp? || (cursor.Horizon? && place == 0)
  }

  /** Nothing else tells the reader where to start. */
  predicate AsksForThePlace(r: Reader, cursor: StreamStart) {
    && r.phase.Fetching? && SequenceOf(r.phase.seen.checkpoint).None? && r.phase.seen.openedAt.None?
    && (r.rewind.None? || r.rewind == Some(ShardStart.Stream(cursor)))
  }

  /** An iterator is fetched as that subscription does, on whatever instance. */
  predicate FetchesFor(r: Reader, step: ReaderStep, cursor: StreamStart, place: nat) {
    step.Fetch? ==>
      && step.installed == Some(cursor)
      && (step.answer.Iterator? && cursor.Timestamp? && AsksForThePlace(r, cursor) ==> step.answer.at == place)
  }

  predicate ActsFor(s: Shard, a: Option<Action>, cursor: StreamStart, place: nat) {
    a.Some? && a.value.ByReader? && a.value.id < |s.readers| ==>
      FetchesFor(s.readers[a.value.id], a.value.step, cursor, place)
  }

  /** A cursor such a reader may hold: the place, or after a checkpoint once one is stored. */
  predicate CursorFrom(s: Shard, start: ShardStart, cursor: StreamStart, place: nat) {
    start == ShardStart.Stream(cursor) || start == At(place) || (start.After? && s.row.checkpoint.Some?)
  }

  function HandsOn(p: Phase): Option<ShardStart> {
    match p
    case Releasing(handOff) => handOff
    case Stopped(handOff) => handOff
    case _ => None
  }

  predicate ReaderFrom(s: Shard, r: Reader, cursor: StreamStart, place: nat) {
    && (r.rewind.Some? ==> CursorFrom(s, r.rewind.value, cursor, place))
    && (HandsOn(r.phase).Some? ==> CursorFrom(s, HandsOn(r.phase).value, cursor, place))
    && (Active(r) ==> r.rewind.Some? && (r.unrecorded ==> r.position == place))
    && (r.phase.Fetching? && r.phase.seen.checkpoint.Some? ==> s.row.checkpoint.Some?)
    && (r.phase.Fetching? && r.phase.seen == LeaseState(None, None) && r.rewind.Some? ==>
          r.rewind.value == ShardStart.Stream(cursor) || r.rewind.value == At(place))
  }

  ghost predicate ReadFrom(s: Shard, cursor: StreamStart, place: nat) {
    && (s.opening.Some? ==> s.opening.value == place)
    && (forall i :: 0 <= i < |s.readers| && Held(s.readers[i]) ==> ReaderFrom(s, s.readers[i], cursor, place))
    && (forall o :: o in s.rewinds ==> CursorFrom(s, s.rewinds[o], cursor, place))
  }

  lemma FetchedFrom(s: Shard, r: Reader, step: ReaderStep, cursor: StreamStart, place: nat)
    requires Ready(s, r, step) && step.Fetch? && FetchesFor(r, step, cursor, place)
    requires OpensAt(cursor, place) && ReaderFrom(s, r, cursor, place) && SeenOk(s, r)
    requires s.opening.Some? ==> s.opening.value == place
    ensures ReaderFrom(s, Moved(s, r, step), cursor, place)
  {
  }

  lemma OtherwiseFrom(s: Shard, r: Reader, step: ReaderStep, cursor: StreamStart, place: nat)
    requires Ready(s, r, step) && !step.Fetch? && ReaderFrom(s, r, cursor, place)
    ensures ReaderFrom(s, Moved(s, r, step), cursor, place)
  {
  }

  /** What a step does outside the reader: no checkpoint is taken back, and the opening is the place. */
  lemma EffectFrom(s: Shard, r: Reader, step: ReaderStep, cursor: StreamStart, place: nat)
    requires Ready(s, r, step) && ReaderFrom(s, r, cursor, place) && (s.opening.Some? ==> s.opening.value == place)
    ensures var s' := Effect(s, r, step);
            && s'.readers == s.readers && s'.rewinds == s.rewinds
            && (s.row.checkpoint.Some? ==> s'.row.checkpoint.Some?)
            && (s'.opening.Some? ==> s'.opening.value == place)
  {
  }

  lemma ReaderStepFrom(s: Shard, id: nat, step: ReaderStep, cursor: StreamStart, place: nat)
    requires Inv(s) && ReadFrom(s, cursor, place) && OpensAt(cursor, place) && Enabled(s, ByReader(id, step))
    requires FetchesFor(s.readers[id], step, cursor, place)
    ensures ReadFrom(DoReader(s, id, step), cursor, place)
  {
    var r := s.readers[id];
    assert Held(r) && ReaderOk(s, r);
    if step.Fetch? {
      FetchedFrom(s, r, step, cursor, place);
    } else {
      OtherwiseFrom(s, r, step, cursor, place);
    }
    EffectFrom(s, r, step, cursor, place);
    PutFrom(s, Effect(s, r, step), id, Moved(s, r, step), cursor, place);
  }

  lemma PutFrom(s: Shard, s': Shard, id: nat, r: Reader, cursor: StreamStart, place: nat)
    requires ReadFrom(s, cursor, place) && id < |s.readers| && s'.readers == s.readers && s'.rewinds == s.rewinds
    requires s.row.checkpoint.Some? ==> s'.row.checkpoint.Some?
    requires s'.opening.Some? ==> s'.opening.value == place
    requires ReaderFrom(s, r, cursor, place)
    ensures ReadFrom(Put(s', id, r), cursor, place)
  {
  }

  /** Nobody is taken up, no cursor is kept that was not, and no checkpoint is taken back. */
  lemma LeavingFrom(s: Shard, s': Shard, cursor: StreamStart, place: nat)
    requires ReadFrom(s, cursor, place) && s'.opening == s.opening
    requires s.row.checkpoint.Some? ==> s'.row.checkpoint.Some?
    requires |s'.readers| == |s.readers|
    requires forall i :: 0 <= i < |s.readers| && Held(s'.readers[i]) ==>
               Held(s.readers[i]) && LeftAlone(s.readers[i], s'.readers[i])
    requires forall o :: o in s'.rewinds ==> CursorFrom(s, s'.rewinds[o], cursor, place)
    ensures ReadFrom(s', cursor, place)
  {
  }

  lemma ForgetFrom(s: Shard, id: nat, cursor: StreamStart, place: nat)
    requires ReadFrom(s, cursor, place) && Enabled(s, Forget(id))
    ensures ReadFrom(DoForget(s, id), cursor, place)
  {
    assert ReaderFrom(s, s.readers[id], cursor, place);
    LeavingFrom(s, DoForget(s, id), cursor, place);
  }

  lemma SettleFrom(s: Shard, id: nat, index: nat, cursor: StreamStart, place: nat)
    requires ReadFrom(s, cursor, place) && Enabled(s, Action.Settle(id, index))
    ensures ReadFrom(DoSettle(s, id, index), cursor, place)
  {
    forall i | 0 <= i < |s.readers|
      ensures LeftAlone(s.readers[i], DoSettle(s, id, index).readers[i])
    {
      SettleLeaves(s, id, index, i);
    }
    LeavingFrom(s, DoSettle(s, id, index), cursor, place);
  }

  lemma SpawnFrom(s: Shard, a: Action, cursor: StreamStart, place: nat)
    requires ReadFrom(s, cursor, place) && Enabled(s, a) && a.Spawn?
    ensures ReadFrom(Do(s, a), cursor, place)
  {
  }

  lemma OtherActionFrom(s: Shard, a: Action, cursor: StreamStart, place: nat)
    requires ReadFrom(s, cursor, place) && Enabled(s, a) && !a.ByReader?
    ensures ReadFrom(Do(s, a), cursor, place)
  {
    var s' := Do(s, a);
    if a.Forget? {
      ForgetFrom(s, a.id, cursor, place);
    } else if a.Settle? {
      SettleFrom(s, a.id, a.index, cursor, place);
    } else if a.Spawn? {
      SpawnFrom(s, a, cursor, place);
    } else {
      LeavingFrom(s, s', cursor, place);
    }
  }

  lemma ShardStepFrom(s: Shard, a: Option<Action>, s': Shard, cursor: StreamStart, place: nat)
    requires Inv(s) && ReadFrom(s, cursor, place) && OpensAt(cursor, place)
    requires ShardTakes(s, a, s') && ActsFor(s, a, cursor, place)
    ensures ReadFrom(s', cursor, place)
  {
    if a.Some? {
      if a.value.ByReader? {
        ReaderStepFrom(s, a.value.id, a.value.step, cursor, place);
      } else {
        OtherActionFrom(s, a.value, cursor, place);
      }
    }
  }

  /** Every instance of the run opens the shard for this subscription. */
  ghost predicate RunsFor(steps: seq<Step>, states: seq<System>, id: ShardId, cursor: StreamStart, place: nat)
    requires |steps| < |states|
  {
    forall k {:trigger steps[k]} :: 0 <= k < |steps| && id in states[k].shards ==>
      ActsFor(states[k].shards[id], ActionOn(states[k], steps[k], id), cursor, place)
  }

  lemma {:induction false} RunReadsFrom(steps: seq<Step>, states: seq<System>, n: nat, id: ShardId, cursor: StreamStart,
                                        place: nat)
    requires IsRun(steps, states) && n < |states| && id in states[n].shards
    requires OpensAt(cursor, place) && RunsFor(steps, states, id, cursor, place)
    ensures Inv(states[n].shards[id]) && ReadFrom(states[n].shards[id], cursor, place)
    decreases n
  {
    RunKeeps(steps, states, n);
    if n > 0 {
      if id in states[n - 1].shards {
        RunReadsFrom(steps, states, n - 1, id, cursor, place);
        OneStepReadsFrom(steps, states, n - 1, id, cursor, place);
      } else {
        NewShardIsFresh(steps, states, n - 1, id);
      }
    }
  }

  lemma OneStepReadsFrom(steps: seq<Step>, states: seq<System>, n: nat, id: ShardId, cursor: StreamStart, place: nat)
    requires IsRun(steps, states) && n < |steps| && id in states[n].shards
    requires OpensAt(cursor, place) && RunsFor(steps, states, id, cursor, place)
    requires Inv(states[n].shards[id]) && ReadFrom(states[n].shards[id], cursor, place)
    ensures id in states[n + 1].shards && ReadFrom(states[n + 1].shards[id], cursor, place)
  {
    ShardMovesInRun(steps, states, n, id);
    var s, a := states[n].shards[id], ActionOn(states[n], steps[n], id);
    assert ActsFor(s, a, cursor, place);
    ShardStepFrom(s, a, states[n + 1].shards[id], cursor, place);
  }

  /** A subscription that opens at the horizon leaves no record out, and one that opens at a timestamp
      none from there on: in every state of every run, whoever takes the shard over, every record from
      the place up to where a reader reads was handed out, aggregated ones aside. */
  lemma NothingIsLeftOut(steps: seq<Step>, states: seq<System>, n: nat, id: ShardId, reader: nat, cursor: StreamStart,
                         place: nat, q: SequenceNumber)
    requires IsRun(steps, states) && n < |states| && id in states[n].shards && reader < |states[n].shards[id].readers|
    requires OpensAt(cursor, place) && RunsFor(steps, states, id, cursor, place)
    requires Active(states[n].shards[id].readers[reader])
    requires place <= q < states[n].shards[id].readers[reader].position
    ensures q < |states[n].shards[id].log|
    ensures states[n].shards[id].log[q].aggregated || q in states[n].shards[id].handed
  {
    RunReadsFrom(steps, states, n, id, cursor, place);
    var s := states[n].shards[id];
    assert ReaderOk(s, s.readers[reader]) && Held(s.readers[reader]);
    assert TrackOk(s, s.readers[reader].track);
  }
}
