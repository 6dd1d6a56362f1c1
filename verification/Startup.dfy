/** Opening a subscription. The caller waits for the coordinator's first pass, and nobody reads the
    bounded delivery channel before it is answered: a task that sent on it earlier could wait for
    ever. `capacity` is any number.

    Every pass of the coordinator is the same loop body. What tells the first one apart is a flag:
    the channel of the answer, there until it is taken at the end of a pass. */
module Startup {

  /** An error, told apart by which failure it reports. */
  type Error = nat

  /** What goes over the channel: an error of the coordinator, or anything a reader sends. */
  datatype Item = Failed(error: Error) | FromReader

  datatype ReaderPhase =
    | Opening(calls: nat) // store and service calls to come before its cursor is fixed
    | Signalled           // start signal dropped: the cursor is fixed, or could not be fetched
    | Stopped

  datatype CoordinatorPhase =
    | Listing
    | Vetting(left: seq<nat>)   // per shard still to vet, the calls to come; the last takes the lease
    | Reporting(error: Error, left: seq<nat>) // a call failed; its error is held or sent
    | Awaiting(next: nat)       // flag taken; waiting for the `next`-th start signal kept
    | SendingHeld               // answered; the errors held go out
    | Sleeping

  /** `reading` is the flag, `first` the pass's own copy of it. `positioned` are the readers whose
      start signal the coordinator kept, `held` the errors it has not sent. */
  datatype State = State(capacity: nat, channel: seq<Item>, answered: bool, reading: bool, first: bool,
                         coordinator: CoordinatorPhase, held: seq<Error>, readers: seq<ReaderPhase>,
                         positioned: seq<nat>)

  datatype Outcome = Proceed | Skip | Fail(error: Error) | Granted

  datatype Action =
    | ListReturns(shards: seq<nat>)
    | ListFails(error: Error)
    | CallReturns(outcome: Outcome)
    | Report
    | PassOver
    | SignalDropped
    | Answer
    | SendHeld
    | HeldSent
    | WakeUp
    | ReaderCallReturns(reader: nat, ok: bool)
    | ReaderSends(reader: nat)
    | ReaderStops(reader: nat)
    | Consume

  predicate Init(s: State) {
    s.channel == [] && !s.answered && s.reading && s.first && s.coordinator.Listing? && s.held == []
    && s.readers == [] && s.positioned == []
  }

  /** The calls a reader makes before its cursor is fixed: reading the row, fetching the iterator. */
  const READER_CALLS := 2

  predicate Enabled(s: State, a: Action) {
    match a
    case ListReturns(shards) => s.coordinator.Listing? && forall i :: 0 <= i < |shards| ==> shards[i] > 0
    case ListFails(_) => s.coordinator.Listing?
    case CallReturns(outcome) =>
      && s.coordinator.Vetting? && s.coordinator.left != []
      && (outcome.Granted? ==> s.coordinator.left[0] == 1)
      && (outcome.Proceed? ==> s.coordinator.left[0] > 1)
    case Report => s.coordinator.Reporting? && (s.first || |s.channel| < s.capacity)
    case PassOver => s.coordinator.Vetting? && s.coordinator.left == []
    case SignalDropped =>
      s.coordinator.Awaiting? && s.coordinator.next < |s.positioned|
      && s.positioned[s.coordinator.next] < |s.readers|
      && !s.readers[s.positioned[s.coordinator.next]].Opening?
    case Answer => s.coordinator.Awaiting? && s.coordinator.next == |s.positioned|
    case SendHeld => s.coordinator.SendingHeld? && s.held != [] && |s.channel| < s.capacity
    case HeldSent => s.coordinator.SendingHeld? && s.held == []
    case WakeUp => s.coordinator.Sleeping?
    case ReaderCallReturns(reader, _) =>
      reader < |s.readers| && s.readers[reader].Opening? && s.readers[reader].calls > 0
    case ReaderSends(reader) => reader < |s.readers| && s.readers[reader].Signalled? && |s.channel| < s.capacity
    case ReaderStops(reader) => reader < |s.readers| && s.readers[reader].Signalled?
    case Consume => s.answered && s.channel != []
  }

  function StartReader(s: State): State {
    s.(readers := s.readers + [Opening(READER_CALLS)],
       positioned := if s.first then s.positioned + [|s.readers|] else s.positioned)
  }

  function Do(s: State, a: Action): State
    requires Enabled(s, a)
  {
    match a
    case ListReturns(shards) => s.(coordinator := Vetting(shards))
    case ListFails(error) => s.(coordinator := Reporting(error, []))
    case CallReturns(outcome) =>
      var left := s.coordinator.left;
      (match outcome
       case Proceed => s.(coordinator := Vetting(left[0 := left[0] - 1]))
       case Skip => s.(coordinator := Vetting(left[1..]))
       case Fail(error) => s.(coordinator := Reporting(error, left[1..]))
       case Granted => StartReader(s).(coordinator := Vetting(left[1..])))
    case Report =>
      var s1 := s.(coordinator := Vetting(s.coordinator.left));
      if s.first then s1.(held := s.held + [s.coordinator.error])
      else s1.(channel := s.channel + [Failed(s.coordinator.error)])
    case PassOver => if s.reading then s.(reading := false, coordinator := Awaiting(0)) else s.(coordinator := Sleeping)
    case SignalDropped => s.(coordinator := Awaiting(s.coordinator.next + 1))
    case Answer => s.(answered := true, coordinator := SendingHeld)
    case SendHeld => s.(channel := s.channel + [Failed(s.held[0])], held := s.held[1..])
    case HeldSent => s.(coordinator := Sleeping)
    case WakeUp => s.(coordinator := Listing, first := s.reading)
    case ReaderCallReturns(reader, ok) =>
      var calls := s.readers[reader].calls - 1;
      s.(readers := s.readers[reader := if ok && calls > 0 then Opening(calls) else Signalled])
    case ReaderSends(reader) => s.(channel := s.channel + [FromReader])
    case ReaderStops(reader) => s.(readers := s.readers[reader := Stopped])
    case Consume => s.(channel := s.channel[1..])
  }

  /** A pass under way. */
  predicate InPass(c: CoordinatorPhase) {
    c.Listing? || c.Vetting? || c.Reporting?
  }

  /** The flag is there until the answer, or its taker waits for the start signals; a pass knows it by
      its copy. Every reader started while it is there has left its start signal. */
  ghost predicate Inv(s: State) {
    && (s.reading ==> !s.answered && InPass(s.coordinator))
    && (!s.reading && !s.answered ==> s.coordinator.Awaiting?)
    && (InPass(s.coordinator) ==> s.first == s.reading)
    && (s.coordinator.Awaiting? ==> !s.reading && !s.answered && s.coordinator.next <= |s.positioned|)
    && (s.coordinator.Vetting? || s.coordinator.Reporting? ==>
          forall i :: 0 <= i < |s.coordinator.left| ==> s.coordinator.left[i] > 0)
    && (forall r :: 0 <= r < |s.readers| && s.readers[r].Opening? ==> s.readers[r].calls > 0)
    && |s.positioned| <= |s.readers|
    && (!s.answered ==> |s.positioned| == |s.readers|)
    && (forall i :: 0 <= i < |s.positioned| ==> s.positioned[i] == i)
    && (s.coordinator.Awaiting? ==> forall i :: 0 <= i < s.coordinator.next ==> !s.readers[i].Opening?)
    && (s.answered ==> forall i :: 0 <= i < |s.positioned| ==> !s.readers[i].Opening?)
    && (s.answered && !s.coordinator.SendingHeld? ==> s.held == [])
  }

  predicate ByReader(a: Action) {
    a.ReaderCallReturns? || a.ReaderSends? || a.ReaderStops? || a.Consume?
  }

  lemma ReaderStepKeeps(s: State, a: Action)
    requires Inv(s) && Enabled(s, a) && ByReader(a)
    ensures Inv(Do(s, a))
  {
  }

  lemma CallKeeps(s: State, outcome: Outcome)
    requires Inv(s) && Enabled(s, CallReturns(outcome))
    ensures Inv(Do(s, CallReturns(outcome)))
  {
  }

  lemma CoordinatorStepKeeps(s: State, a: Action)
    requires Inv(s) && Enabled(s, a) && !ByReader(a) && !a.CallReturns?
    ensures Inv(Do(s, a))
  {
  }

  lemma StepKeeps(s: State, a: Action)
    requires Inv(s) && Enabled(s, a)
    ensures Inv(Do(s, a))
  {
    if ByReader(a) {
      ReaderStepKeeps(s, a);
    } else if a.CallReturns? {
      CallKeeps(s, a.outcome);
    } else {
      CoordinatorStepKeeps(s, a);
    }
  }

  // ----- What is left to do before the answer -----

  /** A step that needs room in the channel, or that makes room. */
  predicate TouchesChannel(s: State, a: Action) {
    (a.Report? && !s.first) || a.SendHeld? || a.ReaderSends? || a.Consume?
  }

  function ReaderWork(readers: seq<ReaderPhase>): nat {
    if readers == [] then 0
    else ReaderWork(readers[..|readers| - 1])
         + match readers[|readers| - 1] { case Opening(calls) => calls case _ => 0 }
  }

  function ShardWork(left: seq<nat>): nat {
    if left == [] then 0 else left[0] + READER_CALLS + 2 + ShardWork(left[1..])
  }

  /** An upper bound on the calls that still have to return and the local steps between them. */
  function Work(s: State): nat {
    ReaderWork(s.readers) +
    match s.coordinator
    case Vetting(left) => ShardWork(left) + |s.positioned| + 2
    case Reporting(_, left) => ShardWork(left) + |s.positioned| + 3
    case Awaiting(next) => (if next <= |s.positioned| then |s.positioned| - next else 0) + 1
    case _ => 0
  }

  lemma {:induction false} ReaderWorkUpdate(readers: seq<ReaderPhase>, r: nat, phase: ReaderPhase)
    requires r < |readers|
    ensures ReaderWork(readers[r := phase]) + (match readers[r] { case Opening(c) => c case _ => 0 })
            == ReaderWork(readers) + (match phase { case Opening(c) => c case _ => 0 })
  {
    var n := |readers| - 1;
    if r == n {
      assert readers[r := phase][..n] == readers[..n];
    } else {
      assert readers[r := phase][..n] == readers[..n][r := phase];
      ReaderWorkUpdate(readers[..n], r, phase);
    }
  }

  /** A step of a call returning, or a local step of the coordinator. */
  predicate IsProgress(s: State, a: Action) {
    !TouchesChannel(s, a) && !a.ReaderStops? && !a.Answer?
  }

  /** Before the answer, no step but the return of the shard list adds to the work, and every call
      that returns and every step of the coordinator takes from it. */
  lemma StepsTakeFromTheWork(s: State, a: Action)
    requires Inv(s) && Enabled(s, a) && !s.answered && !s.coordinator.Listing?
    ensures Work(Do(s, a)) + (if IsProgress(s, a) then 1 else 0) <= Work(s)
    ensures !Do(s, a).coordinator.Listing?
  {
    match a {
      case CallReturns(outcome) =>
        var left := s.coordinator.left;
        assert left[0 := left[0] - 1][1..] == left[1..];
        if outcome.Granted? {
          assert (s.readers + [Opening(READER_CALLS)])[..|s.readers|] == s.readers;
        }
      case ReaderCallReturns(reader, _) => ReaderWorkUpdate(s.readers, reader, Do(s, a).readers[reader]);
      case ReaderStops(reader) => ReaderWorkUpdate(s.readers, reader, Stopped);
      case _ =>
    }
  }

  /** Before the answer some step is always possible that takes from the work and does not touch
      the channel: nothing waits for room in it, or for anybody to read it. */
  lemma SomethingCanHappen(s: State) returns (a: Action)
    requires Inv(s) && !s.answered
    ensures Enabled(s, a) && !TouchesChannel(s, a) && !a.ReaderStops?
    ensures s.coordinator.Listing? ==> a.ListFails?
  {
    match s.coordinator {
      case Listing => a := ListFails(0);
      case Vetting(left) => a := if left == [] then PassOver else CallReturns(Skip);
      case Reporting(_, _) => a := Report;
      case Awaiting(next) =>
        if next == |s.positioned| {
          a := Answer;
        } else if s.readers[next].Opening? {
          a := ReaderCallReturns(next, true);
        } else {
          a := SignalDropped;
        }
    }
  }

  /** A run, with the states it passes. */
  ghost predicate Path(states: seq<State>, actions: seq<Action>) {
    && |states| == |actions| + 1
    && forall i :: 0 <= i < |actions| ==>
         Enabled(states[i], actions[i]) && states[i + 1] == Do(states[i], actions[i])
  }

  lemma {:induction false} PathKeeps(states: seq<State>, actions: seq<Action>, n: nat)
    requires Path(states, actions) && Inv(states[0]) && n < |states|
    ensures Inv(states[n])
  {
    if n > 0 {
      PathKeeps(states, actions, n - 1);
      StepKeeps(states[n - 1], actions[n - 1]);
    }
  }

  /** The steps of the first `n` that are calls returning or local steps of the coordinator. */
  function Progress(states: seq<State>, actions: seq<Action>, n: nat): nat
    requires n <= |actions| < |states|
  {
    if n == 0 then 0
    else Progress(states, actions, n - 1) + if IsProgress(states[n - 1], actions[n - 1]) then 1 else 0
  }

  /** Once the shards are listed, the wait for the answer is bounded however the steps interleave and
      whatever the calls answer: before it, a run has room for no more progress than there is work. */
  lemma {:induction false} TheWaitIsBounded(states: seq<State>, actions: seq<Action>, n: nat)
    requires Path(states, actions) && Inv(states[0]) && !states[0].coordinator.Listing? && n <= |actions|
    requires forall i :: 0 <= i < n ==> !states[i].answered
    ensures Progress(states, actions, n) + Work(states[n]) <= Work(states[0])
    ensures !states[n].coordinator.Listing?
  {
    if n > 0 {
      TheWaitIsBounded(states, actions, n - 1);
      PathKeeps(states, actions, n - 1);
      StepsTakeFromTheWork(states[n - 1], actions[n - 1]);
      assert states[n] == Do(states[n - 1], actions[n - 1]);
    }
  }

  /** Until the subscription is answered the coordinator puts nothing on the channel: an error of any
      pass before that is held. */
  lemma NoSendBeforeTheAnswer(states: seq<State>, actions: seq<Action>, n: nat)
    requires Path(states, actions) && Init(states[0]) && n < |actions| && !states[n].answered
    ensures !actions[n].SendHeld?
    ensures actions[n].Report? ==>
              && states[n + 1].channel == states[n].channel
              && states[n + 1].held == states[n].held + [states[n].coordinator.error]
  {
    PathKeeps(states, actions, n);
    assert Enabled(states[n], actions[n]) && states[n + 1] == Do(states[n], actions[n]);
  }

  /** The flag is taken before the answer and never comes back, so there is one answer. */
  lemma AnsweredOnce(states: seq<State>, actions: seq<Action>, n: nat)
    requires Path(states, actions) && Init(states[0]) && n < |actions|
    ensures actions[n].Answer? ==> !states[n].answered && !states[n].reading
    ensures states[n].answered ==> states[n + 1].answered && !states[n].reading
  {
    PathKeeps(states, actions, n);
    assert Enabled(states[n], actions[n]) && states[n + 1] == Do(states[n], actions[n]);
  }

  /** When it is answered, every reader of the passes before has its cursor or has given up; and that
      is every reader there is at the answer. */
  lemma EveryReaderIsPositioned(states: seq<State>, actions: seq<Action>, n: nat, r: nat)
    requires Path(states, actions) && Init(states[0]) && n < |actions| && actions[n].Answer?
    requires r < |states[n].readers|
    ensures !states[n].readers[r].Opening? && r in states[n].positioned
  {
    PathKeeps(states, actions, n);
    assert Enabled(states[n], actions[n]);
    assert states[n].positioned[r] == r;
  }

  /** From any moment before the answer, with the channel as full as it may be, calls returning are
      enough to reach it. */
  lemma {:induction false} CallsReturningSuffice(s: State) returns (states: seq<State>, actions: seq<Action>)
    requires Inv(s)
    ensures Path(states, actions) && states[0] == s && states[|states| - 1].answered
    ensures forall i :: 0 <= i < |actions| ==> !TouchesChannel(states[i], actions[i])
    decreases !s.answered, s.coordinator.Listing?, Work(s)
  {
    if s.answered {
      states, actions := [s], [];
    } else {
      var a := SomethingCanHappen(s);
      StepKeeps(s, a);
      if !s.coordinator.Listing? {
        StepsTakeFromTheWork(s, a);
      }
      assert !Do(s, a).coordinator.Listing? && (a.Answer? ==> Do(s, a).answered);
      assert !s.answered && (!a.Answer? ==> !Do(s, a).answered);
      var later, rest := CallsReturningSuffice(Do(s, a));
      states, actions := [s] + later, [a] + rest;
      forall i | 0 <= i < |actions|
        ensures Enabled(states[i], actions[i]) && states[i + 1] == Do(states[i], actions[i])
        ensures !TouchesChannel(states[i], actions[i])
      {
        if i > 0 {
          assert states[i] == later[i - 1] && actions[i] == rest[i - 1] && states[i + 1] == later[i];
        }
      }
    }
  }

  // ----- What becomes of the errors -----

  function Errors(items: seq<Item>): seq<Error> {
    if items == [] then []
    else
      var last := items[|items| - 1];
      Errors(items[..|items| - 1]) + if last.Failed? then [last.error] else []
  }

  /** What the step's call failed with. */
  function FailedWith(a: Action): seq<Error> {
    if a.ListFails? then [a.error]
    else if a.CallReturns? && a.outcome.Fail? then [a.outcome.error] else []
  }

  /** The errors of the first `n` steps' calls, in their order. */
  function Failures(actions: seq<Action>, n: nat): seq<Error>
    requires n <= |actions|
  {
    if n == 0 then [] else Failures(actions, n - 1) + FailedWith(actions[n - 1])
  }

  function Got(s: State, a: Action): seq<Item>
    requires Enabled(s, a)
  {
    if a.Consume? then [s.channel[0]] else []
  }

  /** What the reader of the channel got in the first `n` steps. */
  ghost function Received(states: seq<State>, actions: seq<Action>, n: nat): seq<Item>
    requires Path(states, actions) && n <= |actions|
  {
    if n == 0 then []
    else Received(states, actions, n - 1)
         + Got(states[n - 1], actions[n - 1])
  }

  /** Errors on their way: held, or just met. */
  function Pending(s: State): seq<Error> {
    s.held + if s.coordinator.Reporting? then [s.coordinator.error] else []
  }

  lemma OneMore(items: seq<Item>, item: Item)
    ensures Errors(items + [item]) == Errors(items) + if item.Failed? then [item.error] else []
  {
    assert (items + [item])[..|items|] == items;
  }

  /** A send of the coordinator's takes the next pending error, and comes after the answer. */
  lemma SendTakesOne(s: State, a: Action)
    requires Inv(s) && Enabled(s, a) && (a.SendHeld? || (a.Report? && !s.first))
    ensures s.answered && Pending(s) != []
    ensures Do(s, a).channel == s.channel + [Failed(Pending(s)[0])] && Pending(Do(s, a)) == Pending(s)[1..]
  {
  }

  /** Where the errors stand, with what was received so far: delivered or on the channel, then pending. */
  function Accounted(s: State, received: seq<Item>): seq<Error> {
    Errors(received + s.channel) + Pending(s)
  }

  lemma SendLosesNoError(s: State, a: Action, received: seq<Item>)
    requires Inv(s) && Enabled(s, a) && (a.SendHeld? || (a.Report? && !s.first))
    ensures Accounted(Do(s, a), received) == Accounted(s, received)
  {
    SendTakesOne(s, a);
    var item := Failed(Pending(s)[0]);
    OneMore(received + s.channel, item);
    assert received + Do(s, a).channel == received + s.channel + [item];
    assert Pending(s) == [item.error] + Pending(s)[1..];
  }

  lemma ReceivingLosesNoError(s: State, received: seq<Item>)
    requires Enabled(s, Consume)
    ensures Accounted(Do(s, Consume), received + [s.channel[0]]) == Accounted(s, received)
  {
    assert received + [s.channel[0]] + s.channel[1..] == received + s.channel;
  }

  lemma ReaderSendLosesNoError(s: State, a: Action, received: seq<Item>)
    requires Enabled(s, a) && a.ReaderSends?
    ensures Accounted(Do(s, a), received) == Accounted(s, received)
    ensures Errors(Do(s, a).channel) == Errors(s.channel)
  {
    OneMore(s.channel, FromReader);
    OneMore(received + s.channel, FromReader);
    assert Pending(Do(s, a)) == Pending(s);
    assert received + Do(s, a).channel == received + s.channel + [FromReader];
  }

  lemma CallAddsItsError(s: State, a: Action)
    requires Inv(s) && Enabled(s, a)
    requires !a.SendHeld? && !a.ReaderSends? && !a.Consume? && (a.Report? ==> s.first)
    ensures Pending(Do(s, a)) == Pending(s) + FailedWith(a)
    ensures Do(s, a).channel == s.channel
  {
  }

  lemma CallLosesNoError(s: State, a: Action, received: seq<Item>)
    requires Inv(s) && Enabled(s, a)
    requires !a.SendHeld? && !a.ReaderSends? && !a.Consume? && (a.Report? ==> s.first)
    ensures Accounted(Do(s, a), received) == Accounted(s, received) + FailedWith(a)
  {
    CallAddsItsError(s, a);
    var errors := Errors(received + s.channel);
    assert errors + (Pending(s) + FailedWith(a)) == errors + Pending(s) + FailedWith(a);
  }

  /** One step's part of `NoErrorIsLost`. */
  lemma StepLosesNoError(s: State, a: Action, received: seq<Item>)
    requires Inv(s) && Enabled(s, a)
    ensures Accounted(Do(s, a), received + Got(s, a)) == Accounted(s, received) + FailedWith(a)
    ensures !Do(s, a).answered ==> Got(s, a) == [] && Errors(Do(s, a).channel) == Errors(s.channel)
  {
    if a.Consume? {
      ReceivingLosesNoError(s, received);
    } else {
      assert received + Got(s, a) == received;
      if a.ReaderSends? {
        ReaderSendLosesNoError(s, a, received);
      } else if a.SendHeld? || (a.Report? && !s.first) {
        SendTakesOne(s, a);
        SendLosesNoError(s, a, received);
      } else {
        CallAddsItsError(s, a);
        CallLosesNoError(s, a, received);
      }
    }
  }

  /** Over every run each call's error goes the one way, once and in order: what the channel's reader
      received, what is on the channel, and what is held or being reported are together the errors the
      calls answered. Before the answer none of it is on the channel; and once the coordinator is past
      the errors it held, none is held. */
  lemma {:induction false} NoErrorIsLost(states: seq<State>, actions: seq<Action>, n: nat)
    requires Path(states, actions) && Init(states[0]) && n <= |actions|
    ensures Errors(Received(states, actions, n) + states[n].channel) + Pending(states[n]) == Failures(actions, n)
    ensures !states[n].answered ==> Received(states, actions, n) == [] && Errors(states[n].channel) == []
    ensures states[n].answered && !states[n].coordinator.SendingHeld? ==> states[n].held == []
  {
    PathKeeps(states, actions, n);
    if n > 0 {
      NoErrorIsLost(states, actions, n - 1);
      PathKeeps(states, actions, n - 1);
      StepLosesNoError(states[n - 1], actions[n - 1], Received(states, actions, n - 1));
      assert states[n] == Do(states[n - 1], actions[n - 1]);
    }
  }

  // ----- What becomes of the shards -----

  /** The shards listed in the first `n` steps, one count per listing. */
  function Listed(actions: seq<Action>, n: nat): nat
    requires n <= |actions|
  {
    if n == 0 then 0 else Listed(actions, n - 1) + if actions[n - 1].ListReturns? then |actions[n - 1].shards| else 0
  }

  /** A call's answer after which its shard is done with for this pass. */
  predicate Decides(a: Action) {
    a.CallReturns? && !a.outcome.Proceed?
  }

  function Decided(actions: seq<Action>, n: nat): nat
    requires n <= |actions|
  {
    if n == 0 then 0 else Decided(actions, n - 1) + if Decides(actions[n - 1]) then 1 else 0
  }

  function Grants(actions: seq<Action>, n: nat): nat
    requires n <= |actions|
  {
    if n == 0 then 0
    else Grants(actions, n - 1) + if actions[n - 1].CallReturns? && actions[n - 1].outcome.Granted? then 1 else 0
  }

  function Left(c: CoordinatorPhase): nat {
    if c.Vetting? || c.Reporting? then |c.left| else 0
  }

  lemma OneStepDecides(s: State, a: Action)
    requires Enabled(s, a)
    ensures Left(Do(s, a).coordinator) + (if Decides(a) then 1 else 0)
            == Left(s.coordinator) + if a.ListReturns? then |a.shards| else 0
    ensures |Do(s, a).readers| == |s.readers| + if a.CallReturns? && a.outcome.Granted? then 1 else 0
  {
  }

  /** Every pass decides on each shard it listed, once, whatever became of the others, and each lease it
      is granted starts one reader. */
  lemma {:induction false} EveryListedShardIsDecided(states: seq<State>, actions: seq<Action>, n: nat)
    requires Path(states, actions) && Init(states[0]) && n <= |actions|
    ensures Decided(actions, n) + Left(states[n].coordinator) == Listed(actions, n)
    ensures |states[n].readers| == Grants(actions, n)
  {
    if n > 0 {
      EveryListedShardIsDecided(states, actions, n - 1);
      assert Enabled(states[n - 1], actions[n - 1]) && states[n] == Do(states[n - 1], actions[n - 1]);
      OneStepDecides(states[n - 1], actions[n - 1]);
    }
  }

  // ----- What a start signal means -----

  /** The calls of a reader that have returned. */
  function Returned(actions: seq<Action>, n: nat, reader: nat, ok: bool): nat
    requires n <= |actions|
  {
    if n == 0 then 0
    else Returned(actions, n - 1, reader, ok) + if actions[n - 1] == ReaderCallReturns(reader, ok) then 1 else 0
  }

  lemma OneStepReturns(s: State, a: Action, reader: nat)
    requires Enabled(s, a) && reader < |s.readers|
    ensures reader < |Do(s, a).readers|
    ensures var r, r' := s.readers[reader], Do(s, a).readers[reader];
            if a.ReaderCallReturns? && a.reader == reader then
              r.Opening? && r' == if a.ok && r.calls > 1 then Opening(r.calls - 1) else Signalled
            else r' == r || (r.Signalled? && r'.Stopped?)
  {
  }

  lemma OneStepStarts(s: State, a: Action, reader: nat)
    requires Enabled(s, a) && |s.readers| <= reader < |Do(s, a).readers|
    ensures Do(s, a).readers[reader] == Opening(READER_CALLS)
    ensures !a.ReaderCallReturns?
  {
  }

  /** A reader drops its start signal exactly once both calls that fix its cursor have returned well, or
      one has failed. */
  lemma {:induction false} SignalMeansPositioned(states: seq<State>, actions: seq<Action>, n: nat, reader: nat)
    requires Path(states, actions) && Init(states[0]) && n <= |actions|
    ensures reader < |states[n].readers| ==>
              && (states[n].readers[reader].Opening?
                  <==> Returned(actions, n, reader, true) < READER_CALLS && Returned(actions, n, reader, false) == 0)
              && (states[n].readers[reader].Opening? ==>
                    states[n].readers[reader].calls + Returned(actions, n, reader, true) == READER_CALLS)
    ensures |states[n].readers| <= reader ==>
              Returned(actions, n, reader, true) == 0 && Returned(actions, n, reader, false) == 0
  {
    if n > 0 {
      SignalMeansPositioned(states, actions, n - 1, reader);
      var s, a := states[n - 1], actions[n - 1];
      assert Enabled(s, a) && states[n] == Do(s, a);
      if reader < |s.readers| {
        OneStepReturns(s, a, reader);
      } else if reader < |states[n].readers| {
        OneStepStarts(s, a, reader);
      }
    }
  }
}
