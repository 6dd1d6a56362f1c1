/** A stream-wide seek against the readers that come and go while it runs. The seeker installs the
    position, then takes a snapshot of the registered readers and sends to each. The coordinator
    registers a reader before it starts it; the reader looks up the installed position when it
    computes its cursor, and removes its shard's registration when it ends. */
module StreamSeek {
  type ShardId = string

  datatype Phase =
    | Starting                 // registered; cursor not computed yet
    | Positioned(saw: nat)     // cursor computed while installation number `saw` was in force
    | Deregistered             // the guard ran; the task is about to end
    | Ended

  datatype Reader = Reader(shard: ShardId, phase: Phase)

  datatype SeekPhase =
    | Installed
    | Sending(targets: set<nat>, sent: set<nat>) // snapshot taken, `sent` of it commanded
    | Returned(targets: set<nat>, sent: set<nat>)

  /** The `number`-th installation of a position and the seek that made it. */
  datatype Seek = Seek(number: nat, phase: SeekPhase)

  /** `installed` counts installations; `registry` is the bus, `held` the coordinator's handles. */
  datatype State = State(installed: nat, registry: map<ShardId, nat>, held: map<ShardId, nat>,
                         readers: seq<Reader>, seeks: seq<Seek>)

  datatype Action =
    | StartReader(shard: ShardId)
    | ComputeCursor(reader: nat)
    | Deregister(reader: nat)
    | End(reader: nat)
    | ForgetFinished(shard: ShardId)
    | Install
    | Snapshot(seek: nat)
    | SendOne(seek: nat, reader: nat)
    | Return(seek: nat)

  predicate Live(r: Reader) {
    r.phase.Starting? || r.phase.Positioned?
  }

  predicate Init(s: State) {
    s.registry == map[] && s.held == map[] && s.readers == [] && s.seeks == []
  }

  predicate Enabled(s: State, a: Action) {
    match a
    case StartReader(shard) => shard !in s.held
    case ComputeCursor(reader) => reader < |s.readers| && s.readers[reader].phase.Starting?
    case Deregister(reader) => reader < |s.readers| && Live(s.readers[reader])
    case End(reader) => reader < |s.readers| && s.readers[reader].phase.Deregistered?
    case ForgetFinished(shard) =>
      shard in s.held && s.held[shard] < |s.readers| && s.readers[s.held[shard]].phase.Ended?
    case Install => true
    case Snapshot(seek) => seek < |s.seeks| && s.seeks[seek].phase.Installed?
    case SendOne(seek, reader) =>
      seek < |s.seeks| && s.seeks[seek].phase.Sending? && reader in s.seeks[seek].phase.targets
      && reader < |s.readers| && Live(s.readers[reader])
    case Return(seek) =>
      && seek < |s.seeks| && s.seeks[seek].phase.Sending?
      && forall r :: r in s.seeks[seek].phase.targets && r !in s.seeks[seek].phase.sent ==>
           r < |s.readers| && !Live(s.readers[r]) // the send fails only on a reader that is gone
  }

  function SetPhase(s: State, reader: nat, phase: Phase): State
    requires reader < |s.readers|
  {
    s.(readers := s.readers[reader := s.readers[reader].(phase := phase)])
  }

  function SetSeek(s: State, seek: nat, phase: SeekPhase): State
    requires seek < |s.seeks|
  {
    s.(seeks := s.seeks[seek := s.seeks[seek].(phase := phase)])
  }

  function Do(s: State, a: Action): State
    requires Enabled(s, a)
  {
    match a
    case StartReader(shard) =>
      s.(registry := s.registry[shard := |s.readers|], held := s.held[shard := |s.readers|],
         readers := s.readers + [Reader(shard, Starting)])
    case ComputeCursor(reader) => SetPhase(s, reader, Positioned(s.installed))
    case Deregister(reader) =>
      SetPhase(s, reader, Deregistered).(registry := s.registry - {s.readers[reader].shard})
    case End(reader) => SetPhase(s, reader, Ended)
    case ForgetFinished(shard) => s.(held := s.held - {shard})
    case Install => s.(installed := s.installed + 1, seeks := s.seeks + [Seek(s.installed + 1, Installed)])
    case Snapshot(seek) => SetSeek(s, seek, Sending(s.registry.Values, {}))
    case SendOne(seek, reader) =>
      var p := s.seeks[seek].phase;
      SetSeek(s, seek, Sending(p.targets, p.sent + {reader}))
    case Return(seek) =>
      var p := s.seeks[seek].phase;
      SetSeek(s, seek, Returned(p.targets, p.sent))
  }

  /** A live reader is its shard's registered one, and the one the coordinator holds. */
  ghost predicate Registered(s: State) {
    && (forall r :: 0 <= r < |s.readers| && Live(s.readers[r]) ==>
          && s.readers[r].shard in s.registry && s.registry[s.readers[r].shard] == r)
    && (forall r :: 0 <= r < |s.readers| && !s.readers[r].phase.Ended? ==>
          s.readers[r].shard in s.held && s.held[s.readers[r].shard] == r)
    && (forall x :: x in s.registry ==>
          && s.registry[x] < |s.readers| && s.readers[s.registry[x]].shard == x && Live(s.readers[s.registry[x]]))
    && (forall x :: x in s.held ==> s.held[x] < |s.readers|)
  }

  /** Every live reader a seek's snapshot missed has computed its cursor with that position or a
      later one installed, or has not computed it yet. */
  ghost predicate Caught(s: State, k: Seek) {
    && k.number <= s.installed
    && (k.phase.Sending? || k.phase.Returned? ==>
          forall r :: 0 <= r < |s.readers| && r !in k.phase.targets && s.readers[r].phase.Positioned? ==>
            s.readers[r].phase.saw >= k.number)
    && (k.phase.Sending? || k.phase.Returned? ==> forall r :: r in k.phase.targets ==> r < |s.readers|)
    && (k.phase.Returned? ==>
          forall r :: r in k.phase.targets && r !in k.phase.sent ==> !Live(s.readers[r]))
  }

  ghost predicate Inv(s: State) {
    Registered(s) && forall k :: 0 <= k < |s.seeks| ==> Caught(s, s.seeks[k])
  }

  lemma StartRegisters(s: State, shard: ShardId)
    requires Registered(s) && Enabled(s, StartReader(shard))
    ensures Registered(Do(s, StartReader(shard)))
  {
  }

  lemma PhaseRegisters(s: State, a: Action)
    requires Registered(s) && Enabled(s, a) && (a.ComputeCursor? || a.End?)
    ensures Registered(Do(s, a))
  {
  }

  lemma LeavingRegisters(s: State, a: Action)
    requires Registered(s) && Enabled(s, a) && (a.Deregister? || a.ForgetFinished?)
    ensures Registered(Do(s, a))
  {
  }

  lemma RegisteredKeeps(s: State, a: Action)
    requires Inv(s) && Enabled(s, a)
    ensures Registered(Do(s, a))
  {
    match a {
      case StartReader(shard) => StartRegisters(s, shard);
      case ComputeCursor(_) => PhaseRegisters(s, a);
      case End(_) => PhaseRegisters(s, a);
      case Deregister(_) => LeavingRegisters(s, a);
      case ForgetFinished(_) => LeavingRegisters(s, a);
      case _ =>
    }
  }

  lemma CaughtKeeps(s: State, a: Action, k: nat)
    requires Inv(s) && Enabled(s, a) && k < |s.seeks|
    ensures Caught(Do(s, a), Do(s, a).seeks[k])
  {
  }

  lemma StepKeeps(s: State, a: Action)
    requires Inv(s) && Enabled(s, a)
    ensures Inv(Do(s, a))
  {
    RegisteredKeeps(s, a);
    forall k | 0 <= k < |Do(s, a).seeks|
      ensures Caught(Do(s, a), Do(s, a).seeks[k])
    {
      if k < |s.seeks| {
        CaughtKeeps(s, a, k);
      }
    }
  }

  ghost predicate IsRun(actions: seq<Action>, states: seq<State>) {
    && |states| == |actions| + 1
    && Init(states[0])
    && forall i {:trigger actions[i]} :: 0 <= i < |actions| ==>
         Enabled(states[i], actions[i]) && states[i + 1] == Do(states[i], actions[i])
  }

  lemma {:induction false} RunKeeps(actions: seq<Action>, states: seq<State>, n: nat)
    requires IsRun(actions, states) && n < |states|
    ensures Inv(states[n])
  {
    if n > 0 {
      RunKeeps(actions, states, n - 1);
      StepKeeps(states[n - 1], actions[n - 1]);
    }
  }

  // ----- What the numbers mean -----

  /** How many positions were installed in the first `n` steps. */
  function Installs(actions: seq<Action>, n: nat): nat
    requires n <= |actions|
  {
    if n == 0 then 0 else Installs(actions, n - 1) + if actions[n - 1].Install? then 1 else 0
  }

  /** Which seek made which installation: each its own, in order, and the last one is in force. */
  lemma {:induction false} InstallationsAreNumbered(actions: seq<Action>, states: seq<State>, n: nat)
    requires IsRun(actions, states) && n < |states|
    ensures states[n].installed == states[0].installed + Installs(actions, n)
    ensures |states[n].seeks| == Installs(actions, n)
    ensures forall k :: 0 <= k < |states[n].seeks| ==> states[n].seeks[k].number == states[0].installed + k + 1
  {
    if n > 0 {
      InstallationsAreNumbered(actions, states, n - 1);
      assert Enabled(states[n - 1], actions[n - 1]) && states[n] == Do(states[n - 1], actions[n - 1]);
    }
  }

  /** A reader computes its cursor once, with the position that is in force at that step. */
  lemma {:induction false} CursorSawWhatWasInstalled(actions: seq<Action>, states: seq<State>, n: nat, reader: nat)
    returns (m: nat)
    requires IsRun(actions, states) && n < |states|
    requires reader < |states[n].readers| && states[n].readers[reader].phase.Positioned?
    ensures m < n && actions[m] == ComputeCursor(reader)
    ensures states[n].readers[reader].phase.saw == states[0].installed + Installs(actions, m)
  {
    m := n - 1;
    assert Enabled(states[m], actions[m]) && states[n] == Do(states[m], actions[m]);
    if actions[m] == ComputeCursor(reader) {
      InstallationsAreNumbered(actions, states, m);
    } else {
      m := CursorSawWhatWasInstalled(actions, states, n - 1, reader);
    }
  }

  // ----- That a seek ends -----

  function Unsent(k: Seek): set<nat> {
    if k.phase.Sending? then k.phase.targets - k.phase.sent else {}
  }

  ghost predicate Sendable(s: State, seek: nat, reader: nat) {
    && seek < |s.seeks| && s.seeks[seek].phase.Sending? && reader in Unsent(s.seeks[seek])
    && reader < |s.readers| && Live(s.readers[reader])
  }

  /** Whoever else moves, a seek that sends can take a step of its own: it sends to a reader it has not
      sent to, of which there is then one fewer, or it returns. */
  lemma SeekGoesOn(s: State, seek: nat) returns (a: Action)
    requires Inv(s) && seek < |s.seeks| && s.seeks[seek].phase.Sending?
    ensures Enabled(s, a) && (a == Return(seek) || (a.SendOne? && a.seek == seek))
    ensures a.Return? ==> Do(s, a).seeks[seek].phase.Returned?
    ensures a.SendOne? ==>
              Do(s, a).seeks[seek].phase.Sending? && a.reader in Unsent(s.seeks[seek])
              && Unsent(Do(s, a).seeks[seek]) == Unsent(s.seeks[seek]) - {a.reader}
  {
    assert Caught(s, s.seeks[seek]);
    if reader :| Sendable(s, seek, reader) {
      a := SendOne(seek, reader);
    } else {
      a := Return(seek);
      forall r | r in s.seeks[seek].phase.targets && r !in s.seeks[seek].phase.sent
        ensures r < |s.readers| && !Live(s.readers[r])
      {
        assert !Sendable(s, seek, r);
      }
    }
  }

  /** Nor does a reader that leaves keep its shard: once its task ends and the coordinator notices, the
      shard's next reader can start, and is the one registered. */
  lemma LeavingMakesRoom(s: State, reader: nat)
    requires Inv(s) && reader < |s.readers| && s.readers[reader].phase.Deregistered?
    ensures Enabled(s, End(reader))
    ensures var shard, s1 := s.readers[reader].shard, Do(s, End(reader));
            && Enabled(s1, ForgetFinished(shard))
            && var s2 := Do(s1, ForgetFinished(shard));
               && Enabled(s2, StartReader(shard))
               && var s3 := Do(s2, StartReader(shard));
                  && |s3.readers| == |s.readers| + 1 && s3.readers[|s.readers|] == Reader(shard, Starting)
                  && shard in s3.registry && s3.registry[shard] == |s.readers|
  {
  }

  // ----- The two promises -----

  /** No reader falls between a stream-wide seek and startup: from the moment a seek returns, every
      live reader was sent its command, or has computed its cursor with that position or a later
      one installed, or has yet to compute it, and will then see that position or a later one. */
  lemma NoReaderFallsBetween(actions: seq<Action>, states: seq<State>, n: nat, seek: nat, reader: nat)
    requires IsRun(actions, states) && n < |states|
    requires seek < |states[n].seeks| && states[n].seeks[seek].phase.Returned?
    requires reader < |states[n].readers| && Live(states[n].readers[reader])
    ensures var k, r := states[n].seeks[seek], states[n].readers[reader];
            && k.number <= states[n].installed
            && (reader in k.phase.sent || r.phase.Starting? || r.phase.saw >= k.number)
  {
    RunKeeps(actions, states, n);
    assert Caught(states[n], states[n].seeks[seek]);
  }

  /** A reader's exit removes its own registration: the bus entry of its shard names it, never a
      successor, and every other live reader stays registered. */
  lemma ExitSparesTheSuccessor(actions: seq<Action>, states: seq<State>, n: nat, reader: nat, other: nat)
    requires IsRun(actions, states) && n < |actions| && actions[n] == Deregister(reader)
    requires other < |states[n].readers| && other != reader && Live(states[n].readers[other])
    ensures states[n].readers[reader].shard in states[n].registry
            && states[n].registry[states[n].readers[reader].shard] == reader
    ensures states[n].readers[other].shard in states[n + 1].registry
            && states[n + 1].registry[states[n].readers[other].shard] == other
  {
    RunKeeps(actions, states, n);
    RunKeeps(actions, states, n + 1);
    assert Live(states[n].readers[reader]);
    assert states[n + 1] == Do(states[n], actions[n]);
    assert states[n + 1].readers[other] == states[n].readers[other];
  }
}
