/** The whole stream: every shard, and one coordinator per instance that vets a shard's parents,
    takes its lease and starts its reader. Runs are sequences of atomic steps of any task of any
    instance, crashes included. */
module Coordination {
  import opened Wrappers
  import opened Cursor
  import opened Tracking
  import opened Lease
  import opened ShardProtocol
  import opened ShardSafety

  /** Where a coordinator's pass stands. `sawEnd` are the parents it found finished. */
  datatype Coordinator =
    | Idle
    | Checking(shard: ShardId, todo: seq<ShardId>, sawEnd: set<ShardId>)
    | Cleared(shard: ShardId, sawEnd: set<ShardId>) // parents and own row allow a reader
    | Holding(shard: ShardId, sawEnd: set<ShardId>) // lease granted, reader not started yet

  datatype System = System(shards: map<ShardId, Shard>, parents: map<ShardId, seq<ShardId>>,
                           coordinators: map<Owner, Coordinator>)

  datatype Step =
    | AddShard(id: ShardId, shard: Shard, from: seq<ShardId>)
    | Join(owner: Owner)
    | OnShard(id: ShardId, action: Action)
    | Consider(owner: Owner, id: ShardId)
    | CheckParent(owner: Owner, listed: bool, listedClosed: bool, heard: bool, installed: Option<StreamStart>)
    | ReadOwnRow(owner: Owner, heard: bool)
    | AcquireLease(owner: Owner, now: nat, ttl: nat, lands: bool, heard: bool)
    | StartReader(owner: Owner)
    | ForgetReader(owner: Owner, id: ShardId, reader: nat)
    | CrashInstance(owner: Owner)

  /** The steps of a shard that no coordinator takes part in. */
  predicate Autonomous(a: Action) {
    !a.TakeLease? && !a.Spawn? && !a.Forget? && !a.Crash?
  }

  predicate Possible(sys: System, step: Step) {
    match step
    case AddShard(id, shard, from) => id !in sys.shards && Fresh(shard) && shard.keeps
    case Join(owner) => owner !in sys.coordinators
    case OnShard(id, action) => id in sys.shards && Autonomous(action) && Enabled(sys.shards[id], action)
    case CrashInstance(_) => true
    case Consider(owner, id) =>
      owner in sys.coordinators && sys.coordinators[owner].Idle?
      && id in sys.shards && NoReaderOf(sys.shards[id], owner)
    case CheckParent(owner, listed, listedClosed, _, _) =>
      && owner in sys.coordinators && sys.coordinators[owner].Checking? && sys.coordinators[owner].todo != []
      && var parent := sys.coordinators[owner].todo[0];
         (listed ==> parent in sys.shards && (listedClosed ==> sys.shards[parent].closed))
    case ReadOwnRow(owner, _) =>
      owner in sys.coordinators && sys.coordinators[owner].Checking? && sys.coordinators[owner].todo == []
    case AcquireLease(owner, _, _, _, _) => owner in sys.coordinators && sys.coordinators[owner].Cleared?
    case StartReader(owner) => owner in sys.coordinators && sys.coordinators[owner].Holding?
    case ForgetReader(owner, id, reader) =>
      && owner in sys.coordinators && sys.coordinators[owner].Idle?
      && id in sys.shards && Enabled(sys.shards[id], Forget(reader))
      && sys.shards[id].readers[reader].owner == owner
  }

  function Set(sys: System, owner: Owner, c: Coordinator): System {
    sys.(coordinators := sys.coordinators[owner := c])
  }

  function SetShard(sys: System, id: ShardId, shard: Shard): System {
    sys.(shards := sys.shards[id := shard])
  }

  /** One parent of the shard under consideration: finished, skipped, or still pending. */
  function DoCheckParent(sys: System, step: Step): System
    requires step.CheckParent? && Possible(sys, step)
  {
    var c := sys.coordinators[step.owner];
    var parent, rest := c.todo[0], c.todo[1..];
    if !step.listed then Set(sys, step.owner, c.(todo := rest))
    else if !step.heard then Set(sys, step.owner, Idle)
    else
      match sys.shards[parent].row.checkpoint
      case Some(ShardEnd) => Set(sys, step.owner, c.(todo := rest, sawEnd := c.sawEnd + {parent}))
      case None =>
        if step.listedClosed && (step.installed.None? || step.installed.value.Latest?)
        then Set(sys, step.owner, c.(todo := rest))
        else Set(sys, step.owner, Idle)
      case Some(Sequence(_)) => Set(sys, step.owner, Idle)
  }

  function LineageOf(sawEnd: set<ShardId>): Lineage {
    if sawEnd == {} then Opens else Continues
  }

  /** A shard step of a coordinator; by `CoordinatorHasNoReader` its guard never holds one back. */
  function Act(sys: System, id: ShardId, action: Action): System {
    if id in sys.shards && Enabled(sys.shards[id], action)
    then SetShard(sys, id, Do(sys.shards[id], action)) else sys
  }

  function Next(sys: System, step: Step): System
    requires Possible(sys, step)
  {
    match step
    case AddShard(id, shard, from) => SetShard(sys, id, shard).(parents := sys.parents[id := from])
    case Join(owner) => Set(sys, owner, Idle)
    case OnShard(id, action) => Act(sys, id, action)
    case Consider(owner, id) =>
      Set(sys, owner, Checking(id, if id in sys.parents then sys.parents[id] else [], {}))
    case CheckParent(_, _, _, _, _) => DoCheckParent(sys, step)
    case ReadOwnRow(owner, heard) =>
      var c := sys.coordinators[owner];
      if heard && c.shard in sys.shards && sys.shards[c.shard].row.checkpoint != Some(ShardEnd)
      then Set(sys, owner, Cleared(c.shard, c.sawEnd)) else Set(sys, owner, Idle)
    case AcquireLease(owner, now, ttl, lands, heard) =>
      var c := sys.coordinators[owner];
      var after := if lands then Act(sys, c.shard, TakeLease(owner, now, ttl)) else sys;
      var granted := c.shard in sys.shards && Granted(sys.shards[c.shard].row, Acquire(owner, now, ttl));
      Set(after, owner, if lands && heard && granted then Holding(c.shard, c.sawEnd) else Idle)
    case StartReader(owner) =>
      var c := sys.coordinators[owner];
      Set(Act(sys, c.shard, Spawn(owner, LineageOf(c.sawEnd), c.sawEnd)), owner, Idle)
    case ForgetReader(_, id, reader) => Act(sys, id, Forget(reader))
    case CrashInstance(owner) =>
      sys.(shards := map id | id in sys.shards :: Do(sys.shards[id], Crash(owner)),
           coordinators := sys.coordinators - {owner})
  }

  // ----- The invariant -----

  /** A shard that was seen finished: everything that can ever be handed out on it has settled. */
  ghost predicate Finished(s: Shard) {
    && s.closed
    && (s.opening.Some? ==> SettledThrough(s, s.opening.value, |s.log|))
    && (s.opening.None? ==> s.row.checkpoint == Some(ShardEnd))
  }

  ghost predicate AllFinished(sys: System, ids: set<ShardId>) {
    forall p :: p in ids ==> p in sys.shards && Finished(sys.shards[p])
  }

  ghost predicate ReadersVetted(sys: System, s: Shard) {
    forall i :: 0 <= i < |s.readers| ==>
      && AllFinished(sys, s.readers[i].sawEnd)
      && s.readers[i].lineage == LineageOf(s.readers[i].sawEnd)
  }

  ghost predicate CoordinatorOk(sys: System, owner: Owner, c: Coordinator) {
    !c.Idle? ==>
      c.shard in sys.shards && NoReaderOf(sys.shards[c.shard], owner) && AllFinished(sys, c.sawEnd)
  }

  ghost predicate SystemInv(sys: System) {
    && (forall id :: id in sys.shards ==> Inv(sys.shards[id]) && ReadersVetted(sys, sys.shards[id]))
    && (forall owner :: owner in sys.coordinators ==> CoordinatorOk(sys, owner, sys.coordinators[owner]))
  }

  /** A coordinator past the start of its pass has no reader on the shard it works on, so its
      lease and spawn steps are never held back by their guard. */
  lemma CoordinatorHasNoReader(sys: System, owner: Owner, now: nat, ttl: nat, lineage: Lineage, sawEnd: set<ShardId>)
    requires SystemInv(sys) && owner in sys.coordinators && !sys.coordinators[owner].Idle?
    ensures var id := sys.coordinators[owner].shard;
            id in sys.shards && Enabled(sys.shards[id], TakeLease(owner, now, ttl))
            && Enabled(sys.shards[id], Spawn(owner, lineage, sawEnd))
  {
  }

  // ----- What one shard step does to the others' knowledge -----

  /** Once finished, always finished: a shard finished without a recorded opening can never record
      one, since whoever still has an unrecorded reading has lost the lease. */
  lemma FinishedStays(s: Shard, a: Action)
    requires Inv(s) && Enabled(s, a) && Finished(s)
    ensures Finished(Do(s, a))
  {
    var s' := Do(s, a);
    Ahead(s, a);
    if s.opening.Some? {
      forall q | s.opening.value <= q < |s.log| && !s.log[q].aggregated
        ensures q in s'.settled
      {
      }
    } else {
      UnopenedStaysEnded(s, a);
    }
  }

  lemma ReaderIsAhead(s: Shard, r: Reader, step: ReaderStep)
    requires Ready(s, r, step)
    ensures var s' := Effect(s, r, step);
            && s'.settled == s.settled && s'.closed == s.closed && s'.log == s.log
            && (s.opening.Some? ==> s'.opening == s.opening)
  {
  }

  /** What no step takes back. */
  lemma Ahead(s: Shard, a: Action)
    requires Enabled(s, a)
    ensures s.settled <= Do(s, a).settled
    ensures s.closed ==> Do(s, a).closed && Do(s, a).log == s.log
    ensures s.opening.Some? ==> Do(s, a).opening == s.opening
  {
    if a.ByReader? {
      ReaderIsAhead(s, s.readers[a.id], a.step);
    }
  }

  lemma UnopenedStaysEnded(s: Shard, a: Action)
    requires Inv(s) && Enabled(s, a) && s.opening.None? && s.row.checkpoint == Some(ShardEnd)
    ensures Do(s, a).opening.None? && Do(s, a).row.checkpoint == Some(ShardEnd)
  {
  }

  /** A later state of the same reader: vetted on the same parents, and not forgotten before. */
  predicate SameReader(r: Reader, r': Reader) {
    && r'.owner == r.owner && r'.sawEnd == r.sawEnd && r'.lineage == r.lineage
    && (Held(r') ==> Held(r))
  }

  predicate ReadersMatch(s: Shard, s': Shard) {
    |s.readers| <= |s'.readers| && forall i :: 0 <= i < |s.readers| ==> SameReader(s.readers[i], s'.readers[i])
  }

  lemma PutMatches(s: Shard, id: nat, r: Reader)
    requires id < |s.readers| && SameReader(s.readers[id], r)
    ensures ReadersMatch(s, Put(s, id, r))
  {
  }

  lemma MovedIsSame(s: Shard, r: Reader, step: ReaderStep)
    requires Ready(s, r, step)
    ensures SameReader(r, Moved(s, r, step))
    ensures Effect(s, r, step).readers == s.readers
  {
  }

  /** Only a spawn adds a reader, and nothing changes what one was vetted on. */
  lemma ReadersCarryOn(s: Shard, a: Action)
    requires Enabled(s, a)
    ensures |Do(s, a).readers| == if a.Spawn? then |s.readers| + 1 else |s.readers|
    ensures ReadersMatch(s, Do(s, a))
  {
    match a {
      case ByReader(id, step) =>
        MovedIsSame(s, s.readers[id], step);
        PutMatches(s, id, Moved(s, s.readers[id], step));
      case Forget(id) => PutMatches(s, id, s.readers[id].(phase := Forgotten));
      case Settle(id, index) => PutMatches(s, id, s.readers[id].(track := Mark(s.readers[id].track, index)));
      case Crash(owner) => CrashMatches(s, owner);
      case _ =>
    }
  }

  lemma CrashMatches(s: Shard, owner: Owner)
    ensures ReadersMatch(s, s.(readers := ForgetAll(s.readers, owner)))
  {
  }

  lemma NoReaderStays(s: Shard, a: Action, owner: Owner)
    requires Enabled(s, a) && NoReaderOf(s, owner) && (a.Spawn? ==> a.owner != owner)
    ensures NoReaderOf(Do(s, a), owner)
  {
    ReadersCarryOn(s, a);
    var s' := Do(s, a);
    forall i | 0 <= i < |s'.readers| && s'.readers[i].owner == owner
      ensures !Held(s'.readers[i])
    {
      if i < |s.readers| {
        assert SameReader(s.readers[i], s'.readers[i]);
      }
    }
  }

  /** What any task knows of finished shards survives a step on one shard. */
  lemma KnowledgeStays(sys: System, id: ShardId, a: Action, ids: set<ShardId>)
    requires SystemInv(sys) && id in sys.shards && Enabled(sys.shards[id], a)
    requires AllFinished(sys, ids)
    ensures AllFinished(SetShard(sys, id, Do(sys.shards[id], a)), ids)
  {
    if id in ids {
      FinishedStays(sys.shards[id], a);
    }
  }

  /** A step on one shard keeps the invariant, whoever takes it; `mover` is the coordinator whose
      own step it is, and is dealt with by the caller. */
  lemma ActKeeps(sys: System, id: ShardId, a: Action, mover: Option<Owner>)
    requires SystemInv(sys) && id in sys.shards && Enabled(sys.shards[id], a)
    requires a.Spawn? ==>
               mover == Some(a.owner) && AllFinished(sys, a.sawEnd) && a.lineage == LineageOf(a.sawEnd)
    ensures var after := Act(sys, id, a);
            && (forall x :: x in after.shards ==> Inv(after.shards[x]) && ReadersVetted(after, after.shards[x]))
            && (forall owner :: owner in after.coordinators && mover != Some(owner) ==>
                  CoordinatorOk(after, owner, after.coordinators[owner]))
            && (!a.Spawn? ==> SystemInv(after))
  {
    var after := SetShard(sys, id, Do(sys.shards[id], a));
    StepKeeps(sys.shards[id], a);
    forall x | x in after.shards
      ensures ReadersVetted(after, after.shards[x])
    {
      VettedStays(sys, id, a, x);
    }
    forall owner | owner in after.coordinators && (mover != Some(owner) || !a.Spawn?)
      ensures CoordinatorOk(after, owner, after.coordinators[owner])
    {
      CoordinatorStays(sys, id, a, owner);
    }
  }

  lemma CoordinatorStays(sys: System, id: ShardId, a: Action, owner: Owner)
    requires SystemInv(sys) && id in sys.shards && Enabled(sys.shards[id], a) && owner in sys.coordinators
    requires a.Spawn? ==> a.owner != owner
    ensures CoordinatorOk(SetShard(sys, id, Do(sys.shards[id], a)), owner, sys.coordinators[owner])
  {
    var c := sys.coordinators[owner];
    assert CoordinatorOk(sys, owner, c);
    if !c.Idle? {
      KnowledgeStays(sys, id, a, c.sawEnd);
      if c.shard == id {
        NoReaderStays(sys.shards[id], a, owner);
      }
    }
  }

  lemma VettedStays(sys: System, id: ShardId, a: Action, x: ShardId)
    requires SystemInv(sys) && id in sys.shards && Enabled(sys.shards[id], a) && x in sys.shards
    requires a.Spawn? ==> AllFinished(sys, a.sawEnd) && a.lineage == LineageOf(a.sawEnd)
    ensures var after := SetShard(sys, id, Do(sys.shards[id], a)); ReadersVetted(after, after.shards[x])
  {
    var after := SetShard(sys, id, Do(sys.shards[id], a));
    var s, s' := sys.shards[x], after.shards[x];
    assert ReadersVetted(sys, s);
    if x == id {
      ReadersCarryOn(s, a);
    }
    forall i | 0 <= i < |s'.readers|
      ensures AllFinished(after, s'.readers[i].sawEnd)
      ensures s'.readers[i].lineage == LineageOf(s'.readers[i].sawEnd)
    {
      if i < |s.readers| {
        assert SameReader(s.readers[i], s'.readers[i]);
      }
      KnowledgeStays(sys, id, a, s'.readers[i].sawEnd);
    }
  }

  /** A step that only moves a coordinator. */
  lemma SetKeeps(sys: System, owner: Owner, c: Coordinator)
    requires SystemInv(sys) && CoordinatorOk(sys, owner, c)
    ensures SystemInv(Set(sys, owner, c))
  {
  }

  lemma AddShardKeeps(sys: System, step: Step)
    requires SystemInv(sys) && step.AddShard? && Possible(sys, step)
    ensures SystemInv(Next(sys, step))
  {
    var after := Next(sys, step);
    FreshHolds(step.shard);
    forall id | id in after.shards
      ensures Inv(after.shards[id]) && ReadersVetted(after, after.shards[id])
    {
      if id != step.id {
        assert ReadersVetted(sys, sys.shards[id]);
      }
    }
    forall o | o in after.coordinators
      ensures CoordinatorOk(after, o, after.coordinators[o])
    {
      assert CoordinatorOk(sys, o, sys.coordinators[o]);
    }
  }

  /** Reading the end mark in a parent's row is what makes its finish known. */
  lemma CheckParentKeeps(sys: System, step: Step)
    requires SystemInv(sys) && step.CheckParent? && Possible(sys, step)
    ensures SystemInv(Next(sys, step))
  {
    var c := sys.coordinators[step.owner];
    assert CoordinatorOk(sys, step.owner, c);
    var c' := Next(sys, step).coordinators[step.owner];
    if step.listed && step.heard && sys.shards[c.todo[0]].row.checkpoint == Some(ShardEnd) {
      assert Finished(sys.shards[c.todo[0]]);
    }
    SetKeeps(sys, step.owner, c');
  }

  lemma AcquireKeeps(sys: System, step: Step)
    requires SystemInv(sys) && step.AcquireLease? && Possible(sys, step)
    ensures SystemInv(Next(sys, step))
  {
    var c := sys.coordinators[step.owner];
    assert CoordinatorOk(sys, step.owner, c);
    var take := TakeLease(step.owner, step.now, step.ttl);
    var after := sys;
    if step.lands {
      ActKeeps(sys, c.shard, take, None);
      after := Act(sys, c.shard, take);
    }
    assert CoordinatorOk(after, step.owner, c);
    SetKeeps(after, step.owner, Next(sys, step).coordinators[step.owner]);
  }

  lemma StartReaderKeeps(sys: System, step: Step)
    requires SystemInv(sys) && step.StartReader? && Possible(sys, step)
    ensures SystemInv(Next(sys, step))
  {
    var c := sys.coordinators[step.owner];
    assert CoordinatorOk(sys, step.owner, c);
    var spawn := Spawn(step.owner, LineageOf(c.sawEnd), c.sawEnd);
    ActKeeps(sys, c.shard, spawn, Some(step.owner));
    var mid, after := Act(sys, c.shard, spawn), Next(sys, step);
    forall o | o in after.coordinators
      ensures CoordinatorOk(after, o, after.coordinators[o])
    {
      if o != step.owner {
        assert CoordinatorOk(mid, o, mid.coordinators[o]);
      }
    }
    forall id | id in after.shards
      ensures ReadersVetted(after, after.shards[id])
    {
      assert ReadersVetted(mid, mid.shards[id]);
    }
  }

  lemma CrashInstanceKeeps(sys: System, owner: Owner)
    requires SystemInv(sys)
    ensures SystemInv(Next(sys, CrashInstance(owner)))
  {
    var after := Next(sys, CrashInstance(owner));
    forall ids | AllFinished(sys, ids)
      ensures AllFinished(after, ids)
    {
      forall p | p in ids
        ensures Finished(after.shards[p])
      {
        FinishedStays(sys.shards[p], Crash(owner));
      }
    }
    forall id | id in after.shards
      ensures Inv(after.shards[id]) && ReadersVetted(after, after.shards[id])
    {
      StepKeeps(sys.shards[id], Crash(owner));
      assert ReadersVetted(sys, sys.shards[id]);
    }
    forall o | o in after.coordinators
      ensures CoordinatorOk(after, o, after.coordinators[o])
    {
      assert CoordinatorOk(sys, o, sys.coordinators[o]);
      if !sys.coordinators[o].Idle? {
        NoReaderStays(sys.shards[sys.coordinators[o].shard], Crash(owner), o);
      }
    }
  }

  lemma NextKeeps(sys: System, step: Step)
    requires SystemInv(sys) && Possible(sys, step)
    ensures SystemInv(Next(sys, step))
  {
    match step {
      case AddShard(_, _, _) => AddShardKeeps(sys, step);
      case Join(owner) => SetKeeps(sys, owner, Idle);
      case OnShard(id, action) => ActKeeps(sys, id, action, None);
      case Consider(owner, id) =>
        SetKeeps(sys, owner, Checking(id, if id in sys.parents then sys.parents[id] else [], {}));
      case CheckParent(_, _, _, _, _) => CheckParentKeeps(sys, step);
      case ReadOwnRow(owner, _) =>
        assert CoordinatorOk(sys, owner, sys.coordinators[owner]);
        SetKeeps(sys, owner, Next(sys, step).coordinators[owner]);
      case AcquireLease(_, _, _, _, _) => AcquireKeeps(sys, step);
      case StartReader(_) => StartReaderKeeps(sys, step);
      case ForgetReader(_, id, reader) => ActKeeps(sys, id, Forget(reader), None);
      case CrashInstance(owner) => CrashInstanceKeeps(sys, owner);
    }
  }

  // ----- Runs -----

  /** A run from the empty stream: each step is possible where it is taken. */
  ghost predicate IsRun(steps: seq<Step>, states: seq<System>) {
    && |states| == |steps| + 1
    && states[0] == System(map[], map[], map[])
    && forall i {:trigger steps[i]} :: 0 <= i < |steps| ==>
         Possible(states[i], steps[i]) && states[i + 1] == Next(states[i], steps[i])
  }

  lemma {:induction false} RunKeeps(steps: seq<Step>, states: seq<System>, n: nat)
    requires IsRun(steps, states) && n < |states|
    ensures SystemInv(states[n])
  {
    if n > 0 {
      RunKeeps(steps, states, n - 1);
      NextKeeps(states[n - 1], steps[n - 1]);
    }
  }

  /** No read record is skipped on takeover. At any moment of any run, a record that was handed out
      and never settled lies at or after the cursor the row gives the shard's next reader, whatever
      that reader knows besides the row; and the row does not say the shard is finished. */
  lemma TakeoverSkipsNothing(steps: seq<Step>, states: seq<System>, n: nat, id: ShardId, q: SequenceNumber,
                             rewind: Option<ShardStart>, lineage: Lineage, installed: Option<StreamStart>,
                             length: nat, at: nat)
    requires IsRun(steps, states) && n < |states| && id in states[n].shards
    requires q in states[n].shards[id].handed && q !in states[n].shards[id].settled
    requires var row := states[n].shards[id].row;
             Names(ReopenAt(SequenceOf(row.checkpoint), row.openedAt, rewind, lineage, installed), length, at)
    ensures states[n].shards[id].row.checkpoint != Some(ShardEnd)
    ensures at <= q
  {
    RunKeeps(steps, states, n);
    assert Inv(states[n].shards[id]);
  }

  /** A stored checkpoint is sound: everything from the recorded opening through it has settled at
      least once, on whatever reader of whatever instance. */
  lemma CheckpointIsSound(steps: seq<Step>, states: seq<System>, n: nat, id: ShardId, k: SequenceNumber)
    requires IsRun(steps, states) && n < |states| && id in states[n].shards
    requires states[n].shards[id].row.checkpoint == Some(Sequence(k))
    ensures states[n].shards[id].row.openedAt.Some?
    ensures var s := states[n].shards[id];
            s.row.openedAt.value <= k < |s.log| && SettledThrough(s, s.row.openedAt.value, k + 1)
  {
    RunKeeps(steps, states, n);
    assert Inv(states[n].shards[id]);
  }

  /** The end mark is sound: the shard is closed, everything from the recorded opening to its last
      record has settled, and everything any reader ever handed out has. */
  lemma EndMarkIsSound(steps: seq<Step>, states: seq<System>, n: nat, id: ShardId)
    requires IsRun(steps, states) && n < |states| && id in states[n].shards
    requires states[n].shards[id].row.checkpoint == Some(ShardEnd)
    ensures var s := states[n].shards[id];
            && s.closed && s.handed == s.settled
            && (s.row.openedAt.Some? ==> SettledThrough(s, s.row.openedAt.value, |s.log|))
  {
    RunKeeps(steps, states, n);
    assert Inv(states[n].shards[id]);
    FinishedHandsOutNothingNew(states[n].shards[id]);
  }

  lemma FinishedHandsOutNothingNew(s: Shard)
    requires Inv(s) && Finished(s)
    ensures s.handed == s.settled
  {
  }

  /** Parents before children. From the moment a reader that continues its parents is started, at
      every later moment of the run, every record ever handed out on a parent it saw finished has
      settled: in particular when the reader first hands out a record. */
  lemma ParentsBeforeChildren(steps: seq<Step>, states: seq<System>, n: nat, id: ShardId, reader: nat)
    requires IsRun(steps, states) && n < |states| && id in states[n].shards
    requires reader < |states[n].shards[id].readers|
    ensures var r := states[n].shards[id].readers[reader];
            && (r.lineage == Continues <==> r.sawEnd != {})
            && forall p :: p in r.sawEnd ==>
                 p in states[n].shards && states[n].shards[p].handed == states[n].shards[p].settled
  {
    RunKeeps(steps, states, n);
    var r := states[n].shards[id].readers[reader];
    assert ReadersVetted(states[n], states[n].shards[id]);
    forall p | p in r.sawEnd
      ensures p in states[n].shards && states[n].shards[p].handed == states[n].shards[p].settled
    {
      FinishedHandsOutNothingNew(states[n].shards[p]);
    }
  }

  /** A chain of readers, each on a parent the one before it saw finished. */
  ghost predicate Lineal(sys: System, chain: seq<(ShardId, nat)>) {
    && (forall j :: 0 <= j < |chain| ==> chain[j].0 in sys.shards && chain[j].1 < |sys.shards[chain[j].0].readers|)
    && (forall j :: 0 <= j < |chain| - 1 ==>
          chain[j + 1].0 in sys.shards[chain[j].0].readers[chain[j].1].sawEnd)
  }

  /** So the order holds across generations of splits and merges. */
  lemma AncestorsBeforeDescendants(steps: seq<Step>, states: seq<System>, n: nat, chain: seq<(ShardId, nat)>, j: nat)
    requires IsRun(steps, states) && n < |states| && Lineal(states[n], chain) && 0 < j < |chain|
    ensures states[n].shards[chain[j].0].handed == states[n].shards[chain[j].0].settled
  {
    ParentsBeforeChildren(steps, states, n, chain[j - 1].0, chain[j - 1].1);
    assert chain[j - 1 + 1].0 in states[n].shards[chain[j - 1].0].readers[chain[j - 1].1].sawEnd;
  }
}
