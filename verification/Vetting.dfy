/** Why a reader may start. Over every run of the whole stream: its coordinator took the shard up, let
    every parent pass, read the shard's own row, was granted its lease, and did nothing in between. */
module Vetting {
  import opened Wrappers
  import opened Cursor
  import opened Tracking
  import opened Lease
  import opened ShardProtocol
  import opened ShardSafety
  import opened Coordination

  /** A step of the owner's coordinator, or of its whole process. */
  predicate OfOwner(step: Step, owner: Owner) {
    !step.AddShard? && !step.OnShard? && step.owner == owner
  }

  ghost predicate Untouched(steps: seq<Step>, from: nat, to: nat, owner: Owner)
    requires to <= |steps|
  {
    forall k :: from < k < to ==> !OfOwner(steps[k], owner)
  }

  /** The row of a shard; a shard that is not there has an empty one. */
  function RowIn(sys: System, id: ShardId): Row {
    if id in sys.shards then sys.shards[id].row else EMPTY
  }

  /** Step `i` was the owner's answered acquire of the shard, and left it in the row. */
  ghost predicate TookLease(steps: seq<Step>, states: seq<System>, i: nat, owner: Owner, id: ShardId)
    requires i < |steps| && |states| == |steps| + 1
  {
    && steps[i].AcquireLease? && steps[i].owner == owner && steps[i].lands && steps[i].heard
    && owner in states[i].coordinators && states[i].coordinators[owner].Cleared?
    && states[i].coordinators[owner].shard == id
    && RowIn(states[i + 1], id).owner == Some(owner)
  }

  /** What the check of a parent found: it is finished. */
  ghost predicate ReadFinished(sys: System, step: Step, parent: ShardId) {
    step.CheckParent? && step.listed && step.heard && RowIn(sys, parent).checkpoint == Some(ShardEnd)
  }

  /** What the check of a parent found: nobody has read it, and nobody is to. */
  ghost predicate ReadUntouched(sys: System, step: Step, parent: ShardId) {
    && step.CheckParent? && step.listed && step.heard && RowIn(sys, parent).checkpoint.None? && step.listedClosed
    && (step.installed.None? || step.installed == Some(Latest))
  }

  /** The parent does not hold the child back: it is no longer listed, finished, or skipped. */
  ghost predicate LetsPass(sys: System, step: Step, parent: ShardId) {
    step.CheckParent? && (!step.listed || ReadFinished(sys, step, parent) || ReadUntouched(sys, step, parent))
  }

  function ParentsOf(sys: System, id: ShardId): seq<ShardId> {
    if id in sys.parents then sys.parents[id] else []
  }

  /** The steps of one coordinator's pass over one shard: where it took the shard up, the checks of the
      parents, the look at the shard's own row, and the lease. */
  datatype Pass = Pass(start: nat, checks: seq<nat>, ownRow: nat, lease: nat)

  /** Check `m` of the pass, of parent `m`. */
  ghost predicate Checked(steps: seq<Step>, states: seq<System>, p: Pass, n: nat, owner: Owner,
                          parents: seq<ShardId>, m: nat)
    requires n <= |steps| && |states| == |steps| + 1 && m < |p.checks| <= |parents|
  {
    && p.start < p.checks[m] < n && OfOwner(steps[p.checks[m]], owner)
    && LetsPass(states[p.checks[m]], steps[p.checks[m]], parents[m])
  }

  ghost predicate FoundFinished(steps: seq<Step>, states: seq<System>, p: Pass, n: nat, parents: seq<ShardId>,
                                parent: ShardId)
    requires n <= |steps| && |states| == |steps| + 1 && |p.checks| <= |parents|
  {
    exists m :: 0 <= m < |p.checks| && parents[m] == parent && p.checks[m] < n
                && ReadFinished(states[p.checks[m]], steps[p.checks[m]], parent)
  }

  ghost predicate ParentsChecked(steps: seq<Step>, states: seq<System>, p: Pass, n: nat, owner: Owner, id: ShardId,
                                 sawEnd: set<ShardId>)
    requires n <= |steps| && |states| == |steps| + 1
  {
    && p.start < n && steps[p.start] == Consider(owner, id)
    && var parents := ParentsOf(states[p.start], id);
       && |p.checks| <= |parents|
       && (forall m :: 0 <= m < |p.checks| ==> Checked(steps, states, p, n, owner, parents, m))
       && (forall parent :: parent in sawEnd <==> FoundFinished(steps, states, p, n, parents, parent))
  }

  /** The shard's own row was read and did not say that the shard is finished, after every parent let
      the child pass. */
  ghost predicate OwnRowRead(steps: seq<Step>, states: seq<System>, p: Pass, n: nat, owner: Owner, id: ShardId)
    requires n <= |steps| && |states| == |steps| + 1
  {
    && p.start < p.ownRow < n && steps[p.ownRow] == ReadOwnRow(owner, true)
    && |p.checks| == |ParentsOf(states[p.start], id)| && (forall m :: 0 <= m < |p.checks| ==> p.checks[m] < p.ownRow)
    && RowIn(states[p.ownRow], id).checkpoint != Some(ShardEnd)
  }

  /** What the coordinator's state says of its pass so far. */
  ghost predicate PassOk(steps: seq<Step>, states: seq<System>, p: Pass, n: nat, owner: Owner, c: Coordinator)
    requires n <= |steps| && |states| == |steps| + 1
  {
    !c.Idle? ==>
      && ParentsChecked(steps, states, p, n, owner, c.shard, c.sawEnd)
      && (c.Checking? ==> c.todo == ParentsOf(states[p.start], c.shard)[|p.checks|..])
      && (c.Cleared? || c.Holding? ==> OwnRowRead(steps, states, p, n, owner, c.shard))
      && (c.Holding? ==>
            p.ownRow < p.lease < n && TookLease(steps, states, p.lease, owner, c.shard)
            && Untouched(steps, p.lease, n, owner))
  }

  lemma OthersLeaveTheCoordinator(sys: System, step: Step, owner: Owner)
    requires Possible(sys, step) && !OfOwner(step, owner)
    ensures owner in Next(sys, step).coordinators <==> owner in sys.coordinators
    ensures owner in sys.coordinators ==> Next(sys, step).coordinators[owner] == sys.coordinators[owner]
  {
  }

  lemma PassGoesOn(steps: seq<Step>, states: seq<System>, p: Pass, n: nat, owner: Owner, c: Coordinator)
    requires n < |steps| && |states| == |steps| + 1 && PassOk(steps, states, p, n, owner, c)
    requires !OfOwner(steps[n], owner)
    ensures PassOk(steps, states, p, n + 1, owner, c)
  {
    if !c.Idle? {
      ChecksStay(steps, states, p, n, owner, c.shard, c.sawEnd);
    }
  }

  lemma ChecksStay(steps: seq<Step>, states: seq<System>, p: Pass, n: nat, owner: Owner, id: ShardId,
                   sawEnd: set<ShardId>)
    requires n < |steps| && |states| == |steps| + 1 && ParentsChecked(steps, states, p, n, owner, id, sawEnd)
    ensures ParentsChecked(steps, states, p, n + 1, owner, id, sawEnd)
  {
    var parents, n' := ParentsOf(states[p.start], id), n + 1;
    forall m | 0 <= m < |p.checks|
      ensures Checked(steps, states, p, n', owner, parents, m)
    {
      assert Checked(steps, states, p, n, owner, parents, m);
    }
    forall m | 0 <= m < |p.checks|
      ensures p.checks[m] < n
    {
      assert Checked(steps, states, p, n, owner, parents, m);
    }
    assert forall parent :: FoundFinished(steps, states, p, n, parents, parent)
                            <==> FoundFinished(steps, states, p, n + 1, parents, parent);
  }

  /** One more parent lets the child pass. */
  lemma CheckGoesOn(steps: seq<Step>, states: seq<System>, p: Pass, n: nat, owner: Owner) returns (p': Pass)
    requires IsRun(steps, states) && n < |steps| && steps[n].CheckParent? && steps[n].owner == owner
    requires PassOk(steps, states, p, n, owner, states[n].coordinators[owner])
    ensures PassOk(steps, states, p', n + 1, owner, states[n + 1].coordinators[owner])
  {
    var c, c' := states[n].coordinators[owner], states[n + 1].coordinators[owner];
    assert states[n + 1] == Next(states[n], steps[n]);
    p' := p.(checks := p.checks + [n]);
    if !c'.Idle? {
      var parents := ParentsOf(states[p.start], c.shard);
      var parent := c.todo[0];
      assert parents[|p.checks|] == parent;
      assert LetsPass(states[n], steps[n], parent);
      assert c'.sawEnd == if ReadFinished(states[n], steps[n], parent) then c.sawEnd + {parent} else c.sawEnd;
      ChecksStay(steps, states, p, n, owner, c.shard, c.sawEnd);
      CheckAdded(steps, states, p, n, owner, c.shard, c.sawEnd, c'.sawEnd);
    }
  }

  lemma CheckAdded(steps: seq<Step>, states: seq<System>, p: Pass, n: nat, owner: Owner, id: ShardId,
                   sawEnd: set<ShardId>, sawEnd': set<ShardId>)
    requires n < |steps| && |states| == |steps| + 1 && ParentsChecked(steps, states, p, n + 1, owner, id, sawEnd)
    requires p.start < n && OfOwner(steps[n], owner)
    requires |p.checks| < |ParentsOf(states[p.start], id)|
    requires var parent := ParentsOf(states[p.start], id)[|p.checks|];
             && LetsPass(states[n], steps[n], parent)
             && sawEnd' == if ReadFinished(states[n], steps[n], parent) then sawEnd + {parent} else sawEnd
    ensures ParentsChecked(steps, states, p.(checks := p.checks + [n]), n + 1, owner, id, sawEnd')
  {
    var p', n' := p.(checks := p.checks + [n]), n + 1;
    var parents := ParentsOf(states[p.start], id);
    forall m | 0 <= m < |p'.checks|
      ensures Checked(steps, states, p', n', owner, parents, m)
    {
      if m < |p.checks| {
        assert Checked(steps, states, p, n + 1, owner, parents, m);
      }
    }
    forall parent
      ensures parent in sawEnd' <==> FoundFinished(steps, states, p', n + 1, parents, parent)
    {
      if FoundFinished(steps, states, p, n + 1, parents, parent) {
        var m :| 0 <= m < |p.checks| && parents[m] == parent && p.checks[m] < n + 1
                 && ReadFinished(states[p.checks[m]], steps[p.checks[m]], parent);
        assert p'.checks[m] == p.checks[m];
      }
      if parent == parents[|p.checks|] && ReadFinished(states[n], steps[n], parent) {
        assert p'.checks[|p.checks|] == n;
      }
    }
  }

  /** The coordinator's own step: it starts a pass, goes on with one, or ends one. */
  lemma OwnStepGoesOn(steps: seq<Step>, states: seq<System>, p: Pass, n: nat, owner: Owner) returns (p': Pass)
    requires IsRun(steps, states) && n < |steps| && OfOwner(steps[n], owner) && owner in states[n + 1].coordinators
    requires owner in states[n].coordinators ==> PassOk(steps, states, p, n, owner, states[n].coordinators[owner])
    ensures PassOk(steps, states, p', n + 1, owner, states[n + 1].coordinators[owner])
  {
    assert states[n + 1] == Next(states[n], steps[n]);
    p' := p;
    match steps[n] {
      case Consider(_, id) =>
        p' := Pass(n, [], 0, 0);
        var n', parents := n + 1, ParentsOf(states[n], id);
        assert forall parent :: !FoundFinished(steps, states, p', n', parents, parent);
      case CheckParent(_, _, _, _, _) => p' := CheckGoesOn(steps, states, p, n, owner);
      case ReadOwnRow(_, _) => p' := OwnRowGoesOn(steps, states, p, n, owner);
      case AcquireLease(_, _, _, _, _) => p' := LeaseGoesOn(steps, states, p, n, owner);
      case _ =>
    }
  }

  lemma OwnRowGoesOn(steps: seq<Step>, states: seq<System>, p: Pass, n: nat, owner: Owner) returns (p': Pass)
    requires IsRun(steps, states) && n < |steps| && steps[n].ReadOwnRow? && steps[n].owner == owner
    requires PassOk(steps, states, p, n, owner, states[n].coordinators[owner])
    ensures PassOk(steps, states, p', n + 1, owner, states[n + 1].coordinators[owner])
  {
    assert states[n + 1] == Next(states[n], steps[n]);
    var c := states[n].coordinators[owner];
    p' := p.(ownRow := n);
    var parents := ParentsOf(states[p.start], c.shard);
    assert |p.checks| == |parents|;
    forall m | 0 <= m < |p.checks|
      ensures p.checks[m] < n
    {
      assert Checked(steps, states, p, n, owner, parents, m);
    }
    ChecksStay(steps, states, p, n, owner, c.shard, c.sawEnd);
    OnlyTheChecksMatter(steps, states, p, p', n + 1, owner, c.shard, c.sawEnd);
  }

  lemma LeaseGoesOn(steps: seq<Step>, states: seq<System>, p: Pass, n: nat, owner: Owner) returns (p': Pass)
    requires IsRun(steps, states) && n < |steps| && steps[n].AcquireLease? && steps[n].owner == owner
    requires PassOk(steps, states, p, n, owner, states[n].coordinators[owner])
    ensures PassOk(steps, states, p', n + 1, owner, states[n + 1].coordinators[owner])
  {
    var c := states[n].coordinators[owner];
    p' := p.(lease := n);
    AcquireIsAnswered(steps, states, n);
    ChecksStay(steps, states, p, n, owner, c.shard, c.sawEnd);
    OnlyTheChecksMatter(steps, states, p, p', n + 1, owner, c.shard, c.sawEnd);
    assert OwnRowRead(steps, states, p', n + 1, owner, c.shard);
  }

  lemma OnlyTheChecksMatter(steps: seq<Step>, states: seq<System>, p: Pass, p': Pass, n: nat, owner: Owner, id: ShardId,
                            sawEnd: set<ShardId>)
    requires n <= |steps| && |states| == |steps| + 1 && ParentsChecked(steps, states, p, n, owner, id, sawEnd)
    requires p'.start == p.start && p'.checks == p.checks
    ensures ParentsChecked(steps, states, p', n, owner, id, sawEnd)
  {
    var parents := ParentsOf(states[p.start], id);
    forall m | 0 <= m < |p.checks|
      ensures Checked(steps, states, p', n, owner, parents, m)
    {
      assert Checked(steps, states, p, n, owner, parents, m);
    }
    assert forall parent :: FoundFinished(steps, states, p, n, parents, parent)
                            <==> FoundFinished(steps, states, p', n, parents, parent);
  }

  /** An acquire that takes effect and is answered makes the coordinator start a reader if and only if
      the row names its owner afterwards; every other one does not. */
  lemma AcquireIsAnswered(steps: seq<Step>, states: seq<System>, n: nat)
    requires IsRun(steps, states) && n < |steps| && steps[n].AcquireLease?
    ensures var owner, c := steps[n].owner, states[n].coordinators[steps[n].owner];
            && owner in states[n + 1].coordinators
            && states[n + 1].coordinators[owner]
               == if steps[n].lands && steps[n].heard && RowIn(states[n + 1], c.shard).owner == Some(owner)
                  then Holding(c.shard, c.sawEnd) else Idle
  {
    var owner, c := steps[n].owner, states[n].coordinators[steps[n].owner];
    assert states[n + 1] == Next(states[n], steps[n]);
    RunKeeps(steps, states, n);
    CoordinatorHasNoReader(states[n], owner, steps[n].now, steps[n].ttl, Opens, {});
    var row := states[n].shards[c.shard].row;
    if steps[n].lands {
      assert RowIn(states[n + 1], c.shard) == Apply(row, Acquire(owner, steps[n].now, steps[n].ttl));
    }
  }

  lemma {:induction false} PassSoFar(steps: seq<Step>, states: seq<System>, n: nat, owner: Owner) returns (p: Pass)
    requires IsRun(steps, states) && n < |states| && owner in states[n].coordinators
    ensures PassOk(steps, states, p, n, owner, states[n].coordinators[owner])
  {
    p := Pass(0, [], 0, 0);
    if n > 0 {
      assert states[n] == Next(states[n - 1], steps[n - 1]);
      if owner in states[n - 1].coordinators {
        p := PassSoFar(steps, states, n - 1, owner);
      }
      if OfOwner(steps[n - 1], owner) {
        p := OwnStepGoesOn(steps, states, p, n - 1, owner);
      } else {
        OthersLeaveTheCoordinator(states[n - 1], steps[n - 1], owner);
        PassGoesOn(steps, states, p, n - 1, owner, states[n].coordinators[owner]);
      }
    }
  }

  // ----- Every reader -----

  /** The steps that led to reader number `reader` of the shard: the pass, and the start at step `j`. */
  ghost predicate Vetted(steps: seq<Step>, states: seq<System>, p: Pass, j: nat, id: ShardId, reader: nat,
                         owner: Owner, sawEnd: set<ShardId>)
    requires j < |steps| && |states| == |steps| + 1
  {
    && steps[j] == StartReader(owner) && id in states[j].shards && |states[j].shards[id].readers| == reader
    && ParentsChecked(steps, states, p, j, owner, id, sawEnd)
    && OwnRowRead(steps, states, p, j, owner, id)
    && p.ownRow < p.lease < j && TookLease(steps, states, p.lease, owner, id) && Untouched(steps, p.lease, j, owner)
  }

  /** One step adds at most one reader, and keeps who the others are. */
  ghost predicate ReadersStay(sys: System, step: Step, id: ShardId, s': Shard) {
    forall r :: 0 <= r < |s'.readers| ==>
      if id in sys.shards && r < |sys.shards[id].readers|
      then s'.readers[r].owner == sys.shards[id].readers[r].owner
           && s'.readers[r].sawEnd == sys.shards[id].readers[r].sawEnd
      else Started(sys, step, id, r, s'.readers[r])
  }

  lemma MatchingReadersStay(sys: System, step: Step, id: ShardId, s': Shard)
    requires id in sys.shards && |s'.readers| == |sys.shards[id].readers| && ReadersMatch(sys.shards[id], s')
    ensures ReadersStay(sys, step, id, s')
  {
    forall r | 0 <= r < |s'.readers|
      ensures SameReader(sys.shards[id].readers[r], s'.readers[r])
    {
    }
  }

  lemma NextReadersStay(sys: System, step: Step, id: ShardId)
    requires SystemInv(sys) && Possible(sys, step) && id in Next(sys, step).shards
    ensures ReadersStay(sys, step, id, Next(sys, step).shards[id])
  {
    var after := Next(sys, step);
    if step.StartReader? {
      StartMatches(sys, step.owner, id);
    } else if step.AddShard? && step.id == id {
      assert after.shards[id].readers == [];
    } else {
      assert id in sys.shards;
      OtherStepMatches(sys, step, id);
      MatchingReadersStay(sys, step, id, after.shards[id]);
    }
  }

  lemma OtherStepMatches(sys: System, step: Step, id: ShardId)
    requires Possible(sys, step) && id in sys.shards && !step.StartReader?
    ensures id in Next(sys, step).shards && ReadersMatch(sys.shards[id], Next(sys, step).shards[id])
    ensures |Next(sys, step).shards[id].readers| == |sys.shards[id].readers|
  {
    match step {
      case OnShard(_, action) => ActMatches(sys, step.id, action, id);
      case AcquireLease(owner, now, ttl, _, _) =>
        ActMatches(sys, sys.coordinators[owner].shard, TakeLease(owner, now, ttl), id);
      case ForgetReader(_, _, reader) => ActMatches(sys, step.id, Forget(reader), id);
      case CrashInstance(owner) => ReadersCarryOn(sys.shards[id], Crash(owner));
      case _ =>
    }
  }

  ghost predicate Started(sys: System, step: Step, id: ShardId, r: nat, reader: Reader) {
    && id in sys.shards && r == |sys.shards[id].readers|
    && step == StartReader(reader.owner) && reader.owner in sys.coordinators
    && sys.coordinators[reader.owner].Holding? && sys.coordinators[reader.owner].shard == id
    && reader.sawEnd == sys.coordinators[reader.owner].sawEnd
  }

  lemma ActMatches(sys: System, at: ShardId, a: Action, id: ShardId)
    requires id in sys.shards && !a.Spawn?
    ensures id in Act(sys, at, a).shards
    ensures ReadersMatch(sys.shards[id], Act(sys, at, a).shards[id])
    ensures |Act(sys, at, a).shards[id].readers| == |sys.shards[id].readers|
  {
    if at == id && Enabled(sys.shards[at], a) {
      ReadersCarryOn(sys.shards[at], a);
    }
  }

  lemma StartMatches(sys: System, owner: Owner, id: ShardId)
    requires SystemInv(sys) && Possible(sys, StartReader(owner)) && id in Next(sys, StartReader(owner)).shards
    ensures id in sys.shards
    ensures var s, s' := sys.shards[id], Next(sys, StartReader(owner)).shards[id];
            && |s.readers| <= |s'.readers| && ReadersMatch(s, s')
            && ReadersStay(sys, StartReader(owner), id, s')
  {
    var c := sys.coordinators[owner];
    var spawn := Spawn(owner, LineageOf(c.sawEnd), c.sawEnd);
    CoordinatorHasNoReader(sys, owner, 0, 0, LineageOf(c.sawEnd), c.sawEnd);
    if c.shard == id {
      ReadersCarryOn(sys.shards[id], spawn);
    }
  }

  ghost predicate IsThere(sys: System, id: ShardId, reader: nat, owner: Owner, sawEnd: set<ShardId>) {
    && id in sys.shards && reader < |sys.shards[id].readers|
    && sys.shards[id].readers[reader].owner == owner && sys.shards[id].readers[reader].sawEnd == sawEnd
  }

  lemma OneStepBack(sys: System, step: Step, id: ShardId, reader: nat, owner: Owner, sawEnd: set<ShardId>)
    requires SystemInv(sys) && Possible(sys, step) && IsThere(Next(sys, step), id, reader, owner, sawEnd)
    ensures IsThere(sys, id, reader, owner, sawEnd)
            || Started(sys, step, id, reader, Next(sys, step).shards[id].readers[reader])
  {
    NextReadersStay(sys, step, id);
  }

  /** No reader starts but under a lease its owner was granted, and after every parent of its shard let
      it pass: for each reader there is such a pass, it holds the lease from its acquire to the start as
      far as its own process goes, and `sawEnd` is exactly the set of parents found finished. */
  lemma {:induction false} EveryReaderWasVetted(steps: seq<Step>, states: seq<System>, n: nat, id: ShardId,
                                                reader: nat, owner: Owner, sawEnd: set<ShardId>)
    returns (p: Pass, j: nat)
    requires IsRun(steps, states) && n < |states| && IsThere(states[n], id, reader, owner, sawEnd)
    ensures j < n && Vetted(steps, states, p, j, id, reader, owner, sawEnd)
    decreases n
  {
    var r := OneStepBackInRun(steps, states, n, id, reader, owner, sawEnd);
    if r.None? {
      p, j := EveryReaderWasVetted(steps, states, n - 1, id, reader, owner, sawEnd);
    } else {
      j := n - 1;
      p := StartWasVetted(steps, states, j, id, r.value);
    }
  }

  lemma OneStepBackInRun(steps: seq<Step>, states: seq<System>, n: nat, id: ShardId, reader: nat, owner: Owner,
                         sawEnd: set<ShardId>)
    returns (started: Option<Reader>)
    requires IsRun(steps, states) && n < |states| && IsThere(states[n], id, reader, owner, sawEnd)
    ensures n > 0
    ensures started.None? ==> IsThere(states[n - 1], id, reader, owner, sawEnd)
    ensures started.Some? ==>
              && Started(states[n - 1], steps[n - 1], id, reader, started.value)
              && started.value.owner == owner && started.value.sawEnd == sawEnd
  {
    assert n > 0;
    var before, step := states[n - 1], steps[n - 1];
    assert Possible(before, step) && states[n] == Next(before, step);
    RunKeeps(steps, states, n - 1);
    OneStepBack(before, step, id, reader, owner, sawEnd);
    started := if IsThere(before, id, reader, owner, sawEnd) then None else Some(states[n].shards[id].readers[reader]);
  }

  lemma StartWasVetted(steps: seq<Step>, states: seq<System>, j: nat, id: ShardId, r: Reader) returns (p: Pass)
    requires IsRun(steps, states) && j < |steps| && id in states[j].shards
    requires Started(states[j], steps[j], id, |states[j].shards[id].readers|, r)
    ensures Vetted(steps, states, p, j, id, |states[j].shards[id].readers|, r.owner, r.sawEnd)
  {
    p := PassSoFar(steps, states, j, r.owner);
  }
}
