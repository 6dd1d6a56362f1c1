/** What the steps of a coordinator come to, over runs: a pass that nothing holds back does start a
    reader, a finished reader makes room for the next one, and a crash leaves nothing of an instance but
    what it stored. */
module Passes {
  import opened Wrappers
  import opened Cursor
  import opened Tracking
  import opened Lease
  import opened ShardProtocol
  import opened ShardSafety
  import opened Coordination
  import opened Vetting

  lemma ItsShardIsThere(steps: seq<Step>, states: seq<System>, n: nat, owner: Owner)
    requires IsRun(steps, states) && n < |states|
    requires owner in states[n].coordinators && !states[n].coordinators[owner].Idle?
    ensures states[n].coordinators[owner].shard in states[n].shards
  {
    RunKeeps(steps, states, n);
  }

  /** The parents a pass checks are those the service listed the shard with. */
  lemma {:induction false} ParentsAreThoseListed(steps: seq<Step>, states: seq<System>, n: nat, id: ShardId)
    returns (k: nat)
    requires IsRun(steps, states) && n < |states| && id in states[n].shards
    ensures k < n && steps[k].AddShard? && steps[k].id == id && steps[k].from == ParentsOf(states[n], id)
  {
    var step := steps[n - 1];
    assert Possible(states[n - 1], step) && states[n] == Next(states[n - 1], step);
    k := n - 1;
    if !(step.AddShard? && step.id == id) {
      k := ParentsAreThoseListed(steps, states, n - 1, id);
    }
  }

  /** One check moves the pass on exactly when the parent lets the child pass, and remembers the parent
      exactly when it was found finished. */
  lemma CheckIsAnswered(steps: seq<Step>, states: seq<System>, n: nat)
    requires IsRun(steps, states) && n < |steps| && steps[n].CheckParent?
    ensures var owner := steps[n].owner;
            && owner in states[n].coordinators && owner in states[n + 1].coordinators
            && var c := states[n].coordinators[owner];
               && c.Checking? && c.todo != []
               && states[n + 1].coordinators[owner]
                  == if LetsPass(states[n], steps[n], c.todo[0])
                     then Checking(c.shard, c.todo[1..],
                                   if ReadFinished(states[n], steps[n], c.todo[0]) then c.sawEnd + {c.todo[0]}
                                   else c.sawEnd)
                     else Idle
  {
    assert Possible(states[n], steps[n]) && states[n + 1] == Next(states[n], steps[n]);
  }

  /** The shard's own row holds a reader back exactly when it says that the shard is finished, or when it
      could not be read. */
  lemma OwnRowIsAnswered(steps: seq<Step>, states: seq<System>, n: nat)
    requires IsRun(steps, states) && n < |steps| && steps[n].ReadOwnRow?
    ensures var owner := steps[n].owner;
            && owner in states[n].coordinators && owner in states[n + 1].coordinators
            && var c := states[n].coordinators[owner];
               && c.Checking?
               && states[n + 1].coordinators[owner]
                  == if steps[n].heard && RowIn(states[n], c.shard).checkpoint != Some(ShardEnd)
                     then Cleared(c.shard, c.sawEnd) else Idle
  {
    assert Possible(states[n], steps[n]) && states[n + 1] == Next(states[n], steps[n]);
    ItsShardIsThere(steps, states, n, steps[n].owner);
  }

  /** Nothing is handed out or settled on it, and its watermark is empty. */
  predicate IsNew(r: Reader, owner: Owner, sawEnd: set<ShardId>, rewind: Option<ShardStart>) {
    && r.owner == owner && r.sawEnd == sawEnd && r.rewind == rewind && (r.lineage.Continues? <==> sawEnd != {})
    && r.track == Track([], {}) && r.phase == Opening(false)
  }

  /** Under the lease, the coordinator starts one reader: it continues its parents exactly when one was
      found finished, and takes over the cursor that its instance kept for the shard. */
  lemma StartMakesAReader(steps: seq<Step>, states: seq<System>, n: nat, owner: Owner)
    requires IsRun(steps, states) && n < |steps| && steps[n] == StartReader(owner)
    ensures owner in states[n].coordinators && states[n].coordinators[owner].Holding?
    ensures owner in states[n + 1].coordinators && states[n + 1].coordinators[owner].Idle?
    ensures var c := states[n].coordinators[owner];
            && c.shard in states[n].shards && c.shard in states[n + 1].shards
            && var s, s' := states[n].shards[c.shard], states[n + 1].shards[c.shard];
               && |s'.readers| == |s.readers| + 1 && s'.readers[..|s.readers|] == s.readers
               && IsNew(s'.readers[|s.readers|], owner, c.sawEnd,
                        if owner in s.rewinds then Some(s.rewinds[owner]) else None)
               && s'.rewinds == s.rewinds - {owner} && s'.row == s.row
  {
    assert Possible(states[n], steps[n]) && states[n + 1] == Next(states[n], steps[n]);
    ItsShardIsThere(steps, states, n, owner);
    RunKeeps(steps, states, n);
    var c := states[n].coordinators[owner];
    CoordinatorHasNoReader(states[n], owner, 0, 0, LineageOf(c.sawEnd), c.sawEnd);
  }

  /** A reader continues its parents exactly when one of them was seen finished. */
  lemma LineageIsWhatWasSeen(steps: seq<Step>, states: seq<System>, n: nat, id: ShardId, reader: nat)
    requires IsRun(steps, states) && n < |states| && id in states[n].shards && reader < |states[n].shards[id].readers|
    ensures states[n].shards[id].readers[reader].lineage.Continues? <==> states[n].shards[id].readers[reader].sawEnd != {}
  {
    RunKeeps(steps, states, n);
    assert ReadersVetted(states[n], states[n].shards[id]);
  }

  /** A finished reader that is forgotten leaves its instance without one on the shard, and leaves it the
      cursor it handed on, or the one kept before. */
  lemma ForgottenReaderMakesRoom(steps: seq<Step>, states: seq<System>, n: nat, owner: Owner, id: ShardId, reader: nat)
    requires IsRun(steps, states) && n < |steps| && steps[n] == ForgetReader(owner, id, reader)
    ensures id in states[n].shards && id in states[n + 1].shards
    ensures NoReaderOf(states[n + 1].shards[id], owner)
    ensures var s, s' := states[n].shards[id], states[n + 1].shards[id];
            && reader < |s.readers| && s.readers[reader].phase.Stopped?
            && s'.rewinds == (match s.readers[reader].phase.handOff
                              case Some(start) => s.rewinds[owner := start]
                              case None => s.rewinds)
            && s'.row == s.row && |s'.readers| == |s.readers|
            && forall r :: 0 <= r < |s.readers| && r != reader ==> s'.readers[r] == s.readers[r]
  {
    assert Possible(states[n], steps[n]) && states[n + 1] == Next(states[n], steps[n]);
    RunKeeps(steps, states, n);
    var s, s' := states[n].shards[id], states[n + 1].shards[id];
    assert Inv(s) && s' == DoForget(s, reader);
  }

  /** A crash leaves its instance no reader, no coordinator and no cursor; every row, and everything of the
      other instances, is as it was. */
  lemma CrashLeavesNothing(steps: seq<Step>, states: seq<System>, n: nat, owner: Owner, id: ShardId)
    requires IsRun(steps, states) && n < |steps| && steps[n] == CrashInstance(owner) && id in states[n].shards
    ensures states[n + 1].coordinators == states[n].coordinators - {owner}
    ensures id in states[n + 1].shards
    ensures var s, s' := states[n].shards[id], states[n + 1].shards[id];
            && NoReaderOf(s', owner) && owner !in s'.rewinds
            && s' == s.(readers := s'.readers, rewinds := s.rewinds - {owner})
            && |s'.readers| == |s.readers|
            && forall r :: 0 <= r < |s.readers| && s.readers[r].owner != owner ==> s'.readers[r] == s.readers[r]
  {
    assert states[n + 1] == Next(states[n], steps[n]);
  }
}
