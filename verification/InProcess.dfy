/** The in-process transport: the positions of its retained log, and the count of deliveries in
    flight that a test harness waits on while seeks replace each other. */
module InProcess {
  import opened Wrappers
  import opened Decimal

  // ----- Positions -----

  const SEQUENCE_PREFIX := "49"
  const INDEX_WIDTH := 54
  const USIZE := 0x1_0000_0000_0000_0000

  /** A log index as a sequence number: 56 digits, as the service's are. */
  function SequenceOf(index: nat): string {
    SEQUENCE_PREFIX + Padded(index, INDEX_WIDTH)
  }

  /** The standard parse of a machine word: one leading plus sign is allowed, and a value that does
      not fit is refused. */
  function ParseWord(text: string): Option<nat> {
    var digits := if text != "" && text[0] == '+' then text[1..] else text;
    if digits == "" || !AllDigits(digits) then None
    else if Number(digits) < USIZE then Some(Number(digits)) else None
  }

  function IndexOf(sequence: string): Option<nat> {
    if |sequence| < 2 || sequence[..2] != SEQUENCE_PREFIX then None
    else if |sequence[2..]| != INDEX_WIDTH then None
    else ParseWord(sequence[2..])
  }

  lemma TenDigits()
    ensures Pow10(10) == 100_0000_0000
  {
    assert Pow10(2) == 100 && Pow10(4) == 1_0000;
    assert Pow10(6) == 100_0000 && Pow10(8) == 1_0000_0000;
  }

  lemma WordsFitTheWidth(index: nat)
    requires index < USIZE
    ensures index < Pow10(INDEX_WIDTH)
  {
    TenDigits();
    assert Pow10(12) == 1_0000_0000_0000 && Pow10(14) == 100_0000_0000_0000;
    assert Pow10(16) == 1_0000_0000_0000_0000 && Pow10(18) == 100_0000_0000_0000_0000;
    Pow10Grows(20, INDEX_WIDTH);
  }

  lemma {:induction false} Pow10Grows(a: nat, b: nat)
    requires a <= b
    ensures Pow10(a) <= Pow10(b)
  {
    if a < b {
      Pow10Grows(a, b - 1);
    }
  }

  /** A sequence number this transport issued reads back as its index. Every other text it accepts
      differs from an issued one only by a plus sign for the first digit of the index. */
  lemma SequenceNumbersReadBack(sequence: string, index: nat)
    ensures index < USIZE && sequence == SequenceOf(index)
            <==> IndexOf(sequence) == Some(index) && |sequence| > 2 && sequence[2] != '+'
  {
    if index < USIZE && sequence == SequenceOf(index) {
      WordsFitTheWidth(index);
      PaddedReadsBack(index, INDEX_WIDTH);
      assert sequence[2..] == Padded(index, INDEX_WIDTH);
      assert IsDigit(sequence[2..][0]);
    }
    if IndexOf(sequence) == Some(index) && |sequence| > 2 && sequence[2] != '+' {
      assert sequence[2..][0] == sequence[2];
      DigitsWriteBack(sequence[2..]);
      assert sequence == sequence[..2] + sequence[2..];
    }
  }

  /** A sequence number nobody issued may still name an index. */
  lemma PlusSignIsAccepted()
    ensures var signed := SEQUENCE_PREFIX + "+" + Padded(7, INDEX_WIDTH - 1);
            IndexOf(signed) == Some(7) && forall index: nat :: index < USIZE ==> signed != SequenceOf(index)
  {
    var signed := SEQUENCE_PREFIX + "+" + Padded(7, INDEX_WIDTH - 1);
    assert signed[2..] == "+" + Padded(7, INDEX_WIDTH - 1);
    assert signed[2..][1..] == Padded(7, INDEX_WIDTH - 1);
    Pow10Grows(1, INDEX_WIDTH - 1);
    assert Pow10(1) == 10 * Pow10(0);
    PaddedReadsBack(7, INDEX_WIDTH - 1);
    forall index: nat | index < USIZE
      ensures signed != SequenceOf(index)
    {
      SequenceNumbersReadBack(SequenceOf(index), index);
    }
  }

  /** The width is fixed, so text order is log order, for every pair of indices. */
  lemma SequenceNumbersSortInLogOrder(i: nat, j: nat)
    requires i < USIZE && j < USIZE
    ensures LexLess(SequenceOf(i), SequenceOf(j)) <==> i < j
    ensures |SequenceOf(i)| == 56 && SequenceOf(i)[..2] == "49"
  {
    WordsFitTheWidth(i);
    WordsFitTheWidth(j);
    PaddedReadsBack(i, INDEX_WIDTH);
    PaddedReadsBack(j, INDEX_WIDTH);
    OrdersAgree(Padded(i, INDEX_WIDTH), Padded(j, INDEX_WIDTH));
    LexLessAfterPrefix(SEQUENCE_PREFIX, Padded(i, INDEX_WIDTH), Padded(j, INDEX_WIDTH));
  }

  // ----- Seeking -----

  /** Where a reposition lands, and how many retained records that covered when it was resolved. */
  datatype Plan = Plan(target: nat, count: nat)

  /** The harness's count of deliveries in flight. */
  class Coordinator {
    var inFlight: int

    method Enqueued()
      modifies this
      ensures inFlight == old(inFlight) + 1
    {
      inFlight := inFlight + 1;
    }

    method Consumed()
      modifies this
      ensures inFlight == old(inFlight) - 1
    {
      inFlight := inFlight - 1;
    }
  }

  class SeekControl {
    var pending: Option<Plan>

    constructor ()
      ensures pending == None
    {
      pending := None;
    }

    method TakePending() returns (plan: Option<Plan>)
      modifies this
      ensures plan == old(pending) && pending == None
    {
      plan := pending;
      pending := None;
    }

    /** Counts the new plan, then swaps it in, then releases the count of the one it displaced. */
    method InstallSeek(plan: Plan, coordinator: Coordinator?)
      modifies this, coordinator
      ensures pending == Some(plan)
      ensures coordinator != null ==>
                coordinator.inFlight
                == old(coordinator.inFlight) + plan.count - (if old(pending).Some? then old(pending).value.count else 0)
    {
      Count(coordinator, plan.count);
      var displaced := pending;
      pending := Some(plan);
      Uncount(coordinator, if displaced.Some? then displaced.value.count else 0);
    }

    method Count(coordinator: Coordinator?, deliveries: nat)
      modifies coordinator
      ensures coordinator != null ==> coordinator.inFlight == old(coordinator.inFlight) + deliveries
    {
      if coordinator != null {
        for i := 0 to deliveries
          invariant coordinator.inFlight == old(coordinator.inFlight) + i
        {
          coordinator.Enqueued();
        }
      }
    }

    method Uncount(coordinator: Coordinator?, deliveries: nat)
      modifies coordinator
      ensures coordinator != null ==> coordinator.inFlight == old(coordinator.inFlight) - deliveries
    {
      if coordinator != null {
        for i := 0 to deliveries
          invariant coordinator.inFlight == old(coordinator.inFlight) - i
        {
          coordinator.Consumed();
        }
      }
    }
  }

  // ----- Every interleaving of seekers, publishers and subscriptions -----

  type Stream = string

  /** A seek on its way through the installation. */
  datatype Seeker =
    | Counting(plan: Plan, done: nat) // `done` of the plan's deliveries counted so far
    | Releasing(left: nat)            // swapped in; the displaced plan's count is being released

  /** A subscription's poll: what it does with a plan it took. The log is locked from `Grown` on. */
  datatype Poll =
    | Ready
    | Took(plan: Plan)
    | Grown(plan: Plan, suffix: seq<nat>)   // the growth of the log since the plan is counted
    | Drained(plan: Plan, suffix: seq<nat>) // the queue is empty, the suffix not sent yet

  /** `queue` are the log indices of the records queued, `open` counts the deliveries handed out and not
      settled. A subscription that was dropped keeps what
      it had queued: nobody takes it, and nobody releases it. */
  datatype Subscription = Subscription(stream: Stream, live: bool, queue: seq<nat>, open: nat,
                                       pending: Option<Plan>, seekers: seq<Seeker>, poll: Poll)

  /** An append puts the record at `index` of the log and goes over the subscriptions under the same
      lock; `uncounted` is 1 between a send and its count. */
  datatype Fanout = Idle | Fanning(stream: Stream, index: nat, next: nat, uncounted: nat)

  /** One count of deliveries in flight for all subscriptions on all streams. */
  datatype State = State(logs: map<Stream, nat>, subscriptions: seq<Subscription>, fanout: Fanout, inFlight: int)

  datatype SubAction =
    | Resolve(target: nat)
    | CountOne(seeker: nat)
    | Swap(seeker: nat)
    | ReleaseOne(seeker: nat)
    | Take
    | CountGrowth
    | DrainQueue
    | SendSuffix
    | Deliver
    | Refuse // an aggregated record: reported, nothing to settle
    | SettleOne

  datatype Action =
    | Subscribe(stream: Stream)
    | Unsubscribe(id: nat)
    | BeginAppend(stream: Stream)
    | FanOut // one subscription: sends if it is a live one of the stream
    | CountSent
    | EndAppend
    | OfSubscription(id: nat, action: SubAction)

  function LogOf(s: State, stream: Stream): nat {
    if stream in s.logs then s.logs[stream] else 0
  }

  predicate LeavesUnlocked(poll: Poll) {
    poll.Ready? || poll.Took?
  }

  predicate Unlocked(s: State) {
    s.fanout.Idle? && forall i :: 0 <= i < |s.subscriptions| ==> LeavesUnlocked(s.subscriptions[i].poll)
  }

  const INITIAL := State(map[], [], Idle, 0)

  /** The steps that take the log's lock. */
  predicate Locks(a: SubAction) {
    a.Resolve? || a.CountGrowth?
  }

  /** Only a live subscription is polled; its seekers and its deliveries outlive it. */
  predicate Polls(a: SubAction) {
    a.Take? || a.CountGrowth? || a.DrainQueue? || a.SendSuffix? || a.Deliver? || a.Refuse?
  }

  predicate CanMove(c: Subscription, log: nat, a: SubAction) {
    && (Polls(a) ==> c.live)
    && match a
       case Resolve(target) => target <= log
       case CountOne(k) => k < |c.seekers| && c.seekers[k].Counting? && c.seekers[k].done < c.seekers[k].plan.count
       case Swap(k) => k < |c.seekers| && c.seekers[k].Counting? && c.seekers[k].done == c.seekers[k].plan.count
       case ReleaseOne(k) => k < |c.seekers| && c.seekers[k].Releasing? && c.seekers[k].left > 0
       case Take => c.poll.Ready? && c.pending.Some?
       case CountGrowth => c.poll.Took?
       case DrainQueue => c.poll.Grown?
       case SendSuffix => c.poll.Drained?
       case Deliver => c.poll.Ready? && c.queue != []
       case Refuse => c.poll.Ready? && c.queue != []
       case SettleOne => c.open > 0
  }

  predicate Enabled(s: State, a: Action) {
    match a
    case Subscribe(_) => Unlocked(s)
    case Unsubscribe(id) => Unlocked(s) && id < |s.subscriptions| && s.subscriptions[id].live
    case BeginAppend(_) => Unlocked(s)
    case FanOut => s.fanout.Fanning? && s.fanout.uncounted == 0 && s.fanout.next < |s.subscriptions|
    case CountSent => s.fanout.Fanning? && s.fanout.uncounted > 0
    case EndAppend => s.fanout.Fanning? && s.fanout.uncounted == 0 && s.fanout.next == |s.subscriptions|
    case OfSubscription(id, action) =>
      && id < |s.subscriptions|
      && CanMove(s.subscriptions[id], LogOf(s, s.subscriptions[id].stream), action)
      && (Locks(action) ==> Unlocked(s))
  }

  function SetSeeker(c: Subscription, k: nat, seeker: Seeker): Subscription
    requires k < |c.seekers|
  {
    c.(seekers := c.seekers[k := seeker])
  }

  function CountOf(plan: Option<Plan>): nat {
    if plan.Some? then plan.value.count else 0
  }

  /** The indices from `first` up to `end`. */
  function Range(first: nat, end: nat): seq<nat> {
    if first < end then seq(end - first, (i: nat) => first + i) else []
  }

  function Growth(log: nat, plan: Plan): nat {
    var suffix := |Range(plan.target, log)|;
    if plan.count <= suffix then suffix - plan.count else 0
  }

  /** The subscription after a step of its poll, its seekers or its handlers. */
  function Moved(c: Subscription, log: nat, a: SubAction): Subscription
    requires CanMove(c, log, a)
  {
    match a
    case Resolve(target) => c.(seekers := c.seekers + [Counting(Plan(target, log - target), 0)])
    case CountOne(k) => SetSeeker(c, k, Counting(c.seekers[k].plan, c.seekers[k].done + 1))
    case Swap(k) => SetSeeker(c, k, Releasing(CountOf(c.pending))).(pending := Some(c.seekers[k].plan))
    case ReleaseOne(k) => SetSeeker(c, k, Releasing(c.seekers[k].left - 1))
    case Take => c.(poll := Took(c.pending.value), pending := None)
    case CountGrowth => c.(poll := Grown(c.poll.plan, Range(c.poll.plan.target, log)))
    case DrainQueue => c.(poll := Drained(c.poll.plan, c.poll.suffix), queue := [])
    case SendSuffix => c.(poll := Ready, queue := c.queue + c.poll.suffix)
    case Deliver => c.(queue := c.queue[1..], open := c.open + 1)
    case Refuse => c.(queue := c.queue[1..])
    case SettleOne => c.(open := c.open - 1)
  }

  /** What the step does to the count. */
  function Counted(c: Subscription, log: nat, a: SubAction): int
    requires CanMove(c, log, a)
  {
    match a
    case CountOne(_) => 1
    case ReleaseOne(_) => -1
    case CountGrowth => Growth(log, c.poll.plan)
    case DrainQueue => 0 - |c.queue|
    case Refuse => -1
    case SettleOne => -1
    case _ => 0
  }

  /** Whether an append to the stream reaches the subscription. */
  predicate Receives(c: Subscription, stream: Stream) {
    c.live && c.stream == stream
  }

  function DoFanOut(s: State): State
    requires Enabled(s, FanOut)
  {
    var i, f := s.fanout.next, s.fanout;
    var c := s.subscriptions[i];
    if Receives(c, f.stream) then
      s.(subscriptions := s.subscriptions[i := c.(queue := c.queue + [f.index])],
         fanout := f.(next := i + 1, uncounted := 1))
    else s.(fanout := f.(next := i + 1))
  }

  function Do(s: State, a: Action): State
    requires Enabled(s, a)
  {
    match a
    case Subscribe(stream) =>
      s.(subscriptions := s.subscriptions + [Subscription(stream, true, [], 0, None, [], Ready)])
    case Unsubscribe(id) => s.(subscriptions := s.subscriptions[id := s.subscriptions[id].(live := false)])
    case BeginAppend(stream) =>
      s.(logs := s.logs[stream := LogOf(s, stream) + 1], fanout := Fanning(stream, LogOf(s, stream), 0, 0))
    case FanOut => DoFanOut(s)
    case CountSent => s.(inFlight := s.inFlight + 1, fanout := s.fanout.(uncounted := s.fanout.uncounted - 1))
    case EndAppend => s.(fanout := Idle)
    case OfSubscription(id, action) =>
      var c := s.subscriptions[id];
      var log := LogOf(s, c.stream);
      s.(subscriptions := s.subscriptions[id := Moved(c, log, action)], inFlight := s.inFlight + Counted(c, log, action))
  }

  // ----- Conservation -----

  /** The deliveries a seek in progress has counted and not passed on or released. */
  function Owes(seeker: Seeker): nat {
    match seeker
    case Counting(_, done) => done
    case Releasing(left) => left
  }

  function OwedBySeekers(seekers: seq<Seeker>): nat {
    if seekers == [] then 0 else OwedBySeekers(seekers[..|seekers| - 1]) + Owes(seekers[|seekers| - 1])
  }

  function OwedByPoll(poll: Poll): nat {
    match poll
    case Ready => 0
    case Took(plan) => plan.count
    case Grown(_, suffix) => |suffix|
    case Drained(_, suffix) => |suffix|
  }

  /** The deliveries seeks have promised: by installations under way, in the slot, or taken. */
  function Promised(c: Subscription): nat {
    OwedBySeekers(c.seekers) + CountOf(c.pending) + OwedByPoll(c.poll)
  }

  /** The deliveries a subscription accounts for: queued, unsettled or promised. */
  function Share(c: Subscription): nat {
    |c.queue| + c.open + Promised(c)
  }

  function Shares(subscriptions: seq<Subscription>): nat {
    if subscriptions == [] then 0
    else Shares(subscriptions[..|subscriptions| - 1]) + Share(subscriptions[|subscriptions| - 1])
  }

  predicate Covers(log: nat, plan: Plan) {
    plan.target <= log && plan.count <= log - plan.target
  }

  /** No plan promises more than the log holds from its target on. */
  ghost predicate PlansOk(c: Subscription, log: nat) {
    && (c.pending.Some? ==> Covers(log, c.pending.value))
    && (c.poll.Took? ==> Covers(log, c.poll.plan))
    && (forall k :: 0 <= k < |c.seekers| && c.seekers[k].Counting? ==>
          Covers(log, c.seekers[k].plan) && c.seekers[k].done <= c.seekers[k].plan.count)
  }

  function Uncounted(s: State): nat {
    if s.fanout.Fanning? then s.fanout.uncounted else 0
  }

  /** Conservation: what is counted is what all the subscriptions account for. */
  ghost predicate Balanced(s: State) {
    && s.inFlight + Uncounted(s) == Shares(s.subscriptions)
    && forall i :: 0 <= i < |s.subscriptions| ==> PlansOk(s.subscriptions[i], LogOf(s, s.subscriptions[i].stream))
  }

  lemma {:induction false} OwedAfterUpdate(seekers: seq<Seeker>, k: nat, seeker: Seeker)
    requires k < |seekers|
    ensures OwedBySeekers(seekers[k := seeker]) + Owes(seekers[k]) == OwedBySeekers(seekers) + Owes(seeker)
  {
    var n := |seekers| - 1;
    if k == n {
      assert seekers[k := seeker][..n] == seekers[..n];
    } else {
      assert seekers[k := seeker][..n] == seekers[..n][k := seeker];
      OwedAfterUpdate(seekers[..n], k, seeker);
    }
  }

  lemma {:induction false} SharesAfterUpdate(all: seq<Subscription>, i: nat, c: Subscription)
    requires i < |all|
    ensures Shares(all[i := c]) + Share(all[i]) == Shares(all) + Share(c)
  {
    var n := |all| - 1;
    if i == n {
      assert all[i := c][..n] == all[..n];
    } else {
      assert all[i := c][..n] == all[..n][i := c];
      SharesAfterUpdate(all[..n], i, c);
    }
  }

  lemma {:induction false} SharesAreEach(all: seq<Subscription>, i: nat)
    requires i < |all|
    ensures Share(all[i]) <= Shares(all)
  {
    var n := |all| - 1;
    if i < n {
      SharesAreEach(all[..n], i);
    }
  }

  lemma SeekerMoves(c: Subscription, log: nat, a: SubAction)
    requires PlansOk(c, log) && CanMove(c, log, a) && (a.CountOne? || a.Swap? || a.ReleaseOne?)
    ensures PlansOk(Moved(c, log, a), log)
    ensures Share(Moved(c, log, a)) == Share(c) + Counted(c, log, a)
  {
    OwedAfterUpdate(c.seekers, a.seeker, Moved(c, log, a).seekers[a.seeker]);
  }

  /** A subscription's step moves the count by exactly what its share moves. */
  lemma SubscriptionMoves(c: Subscription, log: nat, a: SubAction)
    requires PlansOk(c, log) && CanMove(c, log, a)
    ensures PlansOk(Moved(c, log, a), log)
    ensures Share(Moved(c, log, a)) == Share(c) + Counted(c, log, a)
  {
    if a.CountOne? || a.Swap? || a.ReleaseOne? {
      SeekerMoves(c, log, a);
    } else if a.Resolve? {
      assert Moved(c, log, a).seekers[..|c.seekers|] == c.seekers;
    }
  }

  lemma FanOutBalances(s: State)
    requires Balanced(s) && Enabled(s, FanOut)
    ensures Balanced(DoFanOut(s))
  {
    var i, c := s.fanout.next, s.subscriptions[s.fanout.next];
    if Receives(c, s.fanout.stream) {
      var more := c.(queue := c.queue + [s.fanout.index]);
      SharesAfterUpdate(s.subscriptions, i, more);
      assert Share(more) == Share(c) + 1;
    }
  }

  lemma SubscriptionStepBalances(s: State, id: nat, a: SubAction)
    requires Balanced(s) && Enabled(s, OfSubscription(id, a))
    ensures Balanced(Do(s, OfSubscription(id, a)))
  {
    var c := s.subscriptions[id];
    var log := LogOf(s, c.stream);
    SubscriptionMoves(c, log, a);
    SharesAfterUpdate(s.subscriptions, id, Moved(c, log, a));
    assert Moved(c, log, a).stream == c.stream;
    var s' := s.(subscriptions := s.subscriptions[id := Moved(c, log, a)],
                 inFlight := s.inFlight + Counted(c, log, a));
    assert s' == Do(s, OfSubscription(id, a));
    assert forall i :: 0 <= i < |s'.subscriptions| ==>
             PlansOk(s'.subscriptions[i], LogOf(s', s'.subscriptions[i].stream));
  }

  lemma StepBalances(s: State, a: Action)
    requires Balanced(s) && Enabled(s, a)
    ensures Balanced(Do(s, a))
  {
    match a {
      case Subscribe(_) => assert Do(s, a).subscriptions[..|s.subscriptions|] == s.subscriptions;
      case Unsubscribe(id) => SharesAfterUpdate(s.subscriptions, id, s.subscriptions[id].(live := false));
      case FanOut => FanOutBalances(s);
      case OfSubscription(id, action) => SubscriptionStepBalances(s, id, action);
      case _ =>
    }
  }

  ghost predicate IsRun(actions: seq<Action>, states: seq<State>) {
    && |states| == |actions| + 1
    && states[0] == INITIAL
    && forall i {:trigger actions[i]} :: 0 <= i < |actions| ==>
         Enabled(states[i], actions[i]) && states[i + 1] == Do(states[i], actions[i])
  }

  lemma {:induction false} RunBalances(actions: seq<Action>, states: seq<State>, n: nat)
    requires IsRun(actions, states) && n < |states|
    ensures Balanced(states[n])
  {
    if n > 0 {
      RunBalances(actions, states, n - 1);
      StepBalances(states[n - 1], actions[n - 1]);
    }
  }

  /** Over every interleaving, the count is exact whenever no append is half done, and a harness that
      finds it at zero finds nothing queued, unsettled or promised on any subscription of any stream:
      no replay is pending. */
  lemma ZeroMeansQuiet(actions: seq<Action>, states: seq<State>, n: nat)
    requires IsRun(actions, states) && n < |states| && states[n].fanout.Idle?
    ensures states[n].inFlight == Shares(states[n].subscriptions)
    ensures states[n].inFlight == 0 ==>
              forall i :: 0 <= i < |states[n].subscriptions| ==>
                var c := states[n].subscriptions[i];
                c.queue == [] && c.open == 0 && Promised(c) == 0
  {
    RunBalances(actions, states, n);
    var s := states[n];
    forall i | 0 <= i < |s.subscriptions|
      ensures Share(s.subscriptions[i]) <= Shares(s.subscriptions)
    {
      SharesAreEach(s.subscriptions, i);
    }
  }

  // ----- What is queued -----

  /** The end of the log as the subscription's queue knows it: an append under way has not reached it,
      or has. */
  function EndFor(s: State, id: nat): nat
    requires id < |s.subscriptions|
  {
    var stream := s.subscriptions[id].stream;
    if s.fanout.Fanning? && s.fanout.stream == stream && s.fanout.next <= id then s.fanout.index
    else LogOf(s, stream)
  }

  /** The queue is the last stretch of the log, in its order and with nothing missing. A reposition
      under way holds the lock: its suffix stays the log from the plan's target on. */
  ghost predicate QueueOk(s: State, id: nat)
    requires id < |s.subscriptions|
  {
    var c := s.subscriptions[id];
    && (c.live ==> |c.queue| <= EndFor(s, id) && c.queue == Range(EndFor(s, id) - |c.queue|, EndFor(s, id)))
    && (!LeavesUnlocked(c.poll) ==>
          c.live && s.fanout.Idle? && c.poll.plan.target <= LogOf(s, c.stream)
          && c.poll.suffix == Range(c.poll.plan.target, LogOf(s, c.stream)))
    && (c.poll.Drained? ==> c.queue == [])
  }

  ghost predicate QueuesOk(s: State) {
    && (s.fanout.Fanning? ==> LogOf(s, s.fanout.stream) == s.fanout.index + 1 && s.fanout.next <= |s.subscriptions|)
    && forall id :: 0 <= id < |s.subscriptions| ==> QueueOk(s, id)
  }

  lemma FanOutKeepsQueues(s: State)
    requires QueuesOk(s) && Enabled(s, FanOut)
    ensures QueuesOk(DoFanOut(s))
  {
    var s' := DoFanOut(s);
    forall id | 0 <= id < |s'.subscriptions|
      ensures QueueOk(s', id)
    {
      assert QueueOk(s, id);
    }
  }

  lemma SubscriptionKeepsItsQueue(s: State, id: nat, a: SubAction)
    requires QueuesOk(s) && Enabled(s, OfSubscription(id, a))
    requires PlansOk(s.subscriptions[id], LogOf(s, s.subscriptions[id].stream))
    ensures QueueOk(Do(s, OfSubscription(id, a)), id)
  {
    assert QueueOk(s, id);
  }

  lemma StepKeepsQueues(s: State, a: Action)
    requires QueuesOk(s) && Balanced(s) && Enabled(s, a)
    ensures QueuesOk(Do(s, a))
  {
    var s' := Do(s, a);
    if a.FanOut? {
      FanOutKeepsQueues(s);
    } else {
      forall id | 0 <= id < |s'.subscriptions|
        ensures QueueOk(s', id)
      {
        if a.OfSubscription? && a.id == id {
          SubscriptionKeepsItsQueue(s, id, a.action);
        } else if id < |s.subscriptions| {
          assert QueueOk(s, id);
        }
      }
    }
  }

  lemma {:induction false} RunKeepsQueues(actions: seq<Action>, states: seq<State>, n: nat)
    requires IsRun(actions, states) && n < |states|
    ensures QueuesOk(states[n])
  {
    if n > 0 {
      RunKeepsQueues(actions, states, n - 1);
      RunBalances(actions, states, n - 1);
      StepKeepsQueues(states[n - 1], actions[n - 1]);
    }
  }

  /** The plan was resolved at an earlier moment, against the log of that moment. */
  ghost predicate WasResolved(actions: seq<Action>, states: seq<State>, n: nat, id: nat, plan: Plan)
    requires n <= |actions| < |states|
  {
    exists k {:trigger actions[k]} ::
      0 <= k < n && actions[k] == OfSubscription(id, Resolve(plan.target))
      && id < |states[k].subscriptions|
      && plan.target + plan.count == LogOf(states[k], states[k].subscriptions[id].stream)
  }

  predicate HasPlan(c: Subscription, plan: Plan) {
    || c.pending == Some(plan)
    || (!c.poll.Ready? && c.poll.plan == plan)
    || exists k :: 0 <= k < |c.seekers| && c.seekers[k].Counting? && c.seekers[k].plan == plan
  }

  /** Every plan on its way, in the slot or taken is a seek's, as it was resolved. */
  lemma {:induction false} PlanWasResolved(actions: seq<Action>, states: seq<State>, n: nat, id: nat, plan: Plan)
    requires IsRun(actions, states) && n < |states| && id < |states[n].subscriptions|
    requires HasPlan(states[n].subscriptions[id], plan)
    ensures WasResolved(actions, states, n, id, plan)
  {
    if n > 0 {
      var s, a := states[n - 1], actions[n - 1];
      RunBalances(actions, states, n - 1);
      assert Enabled(s, a) && states[n] == Do(s, a);
      if id < |s.subscriptions| && HasPlan(s.subscriptions[id], plan) {
        PlanWasResolved(actions, states, n - 1, id, plan);
      } else {
        assert a == OfSubscription(id, Resolve(plan.target));
      }
    }
  }

  /** A reposition leaves exactly the log from its plan's target on, what grew since it was resolved
      included, in log order. */
  lemma SeekLandsOnItsTarget(actions: seq<Action>, states: seq<State>, n: nat, id: nat)
    requires IsRun(actions, states) && n < |actions| && actions[n] == OfSubscription(id, SendSuffix)
    ensures id < |states[n].subscriptions| && id < |states[n + 1].subscriptions|
    ensures var (before, after) := (states[n].subscriptions[id], states[n + 1].subscriptions[id]);
            && before.poll.Drained?
            && WasResolved(actions, states, n, id, before.poll.plan)
            && after.queue == Range(before.poll.plan.target, LogOf(states[n + 1], after.stream))
  {
    RunKeepsQueues(actions, states, n);
    assert Enabled(states[n], actions[n]) && states[n + 1] == Do(states[n], actions[n]);
    assert QueueOk(states[n], id);
    PlanWasResolved(actions, states, n, id, states[n].subscriptions[id].poll.plan);
  }

  predicate Takes(a: Action, id: nat) {
    a == OfSubscription(id, Deliver) || a == OfSubscription(id, Refuse)
  }

  /** What the subscription takes off its queue by the step. */
  function TakenBy(s: State, a: Action, id: nat): (taken: seq<nat>)
    requires Enabled(s, a)
  {
    if Takes(a, id) then [s.subscriptions[id].queue[0]] else []
  }

  /** The log indices the subscription took off its queue in the steps from `i` up to `j`. */
  ghost function Taken(actions: seq<Action>, states: seq<State>, i: nat, j: nat, id: nat): seq<nat>
    requires IsRun(actions, states) && i <= j <= |actions|
  {
    if i == j then [] else Taken(actions, states, i, j - 1, id) + TakenBy(states[j - 1], actions[j - 1], id)
  }

  /** What was taken and what is queued are the log from `place` on. */
  ghost predicate ReadsFrom(s: State, id: nat, place: nat, taken: seq<nat>)
    requires id < |s.subscriptions|
  {
    && place <= EndFor(s, id)
    && taken + s.subscriptions[id].queue == Range(place, EndFor(s, id))
    && !s.subscriptions[id].poll.Drained?
  }

  lemma OthersReadOn(s: State, a: Action, id: nat, place: nat, taken: seq<nat>)
    requires Enabled(s, a) && !(a.OfSubscription? && a.id == id) && id < |s.subscriptions| && QueuesOk(s)
    requires Do(s, a).subscriptions[id].live && ReadsFrom(s, id, place, taken)
    ensures ReadsFrom(Do(s, a), id, place, taken)
  {
    assert QueueOk(s, id);
    var queue := s.subscriptions[id].queue;
    if a.FanOut? && s.fanout.next == id && Receives(s.subscriptions[id], s.fanout.stream) {
      assert taken + (queue + [s.fanout.index]) == (taken + queue) + [s.fanout.index];
    }
  }

  lemma ItselfReadsOn(s: State, a: Action, id: nat, place: nat, taken: seq<nat>)
    requires Enabled(s, a) && a.OfSubscription? && a.id == id && !a.action.DrainQueue?
    requires ReadsFrom(s, id, place, taken)
    ensures ReadsFrom(Do(s, a), id, place, taken + TakenBy(s, a, id))
  {
    var queue := s.subscriptions[id].queue;
    assert LogOf(Do(s, a), s.subscriptions[id].stream) == LogOf(s, s.subscriptions[id].stream);
    if Takes(a, id) {
      assert taken + [queue[0]] + queue[1..] == taken + queue;
    }
  }

  lemma StepReadsOn(s: State, a: Action, id: nat, place: nat, taken: seq<nat>)
    requires QueuesOk(s) && Enabled(s, a) && a != OfSubscription(id, DrainQueue) && id < |s.subscriptions|
    requires Do(s, a).subscriptions[id].live && ReadsFrom(s, id, place, taken)
    ensures ReadsFrom(Do(s, a), id, place, taken + TakenBy(s, a, id))
  {
    if a.OfSubscription? && a.id == id {
      ItselfReadsOn(s, a, id, place, taken);
    } else {
      OthersReadOn(s, a, id, place, taken);
      assert taken + TakenBy(s, a, id) == taken;
    }
  }

  lemma LiveBefore(s: State, a: Action, id: nat)
    requires Enabled(s, a) && id < |s.subscriptions| && Do(s, a).subscriptions[id].live
    ensures s.subscriptions[id].live
  {
  }

  /** A subscription whose queue starts at some place of the log (its opening, or where a seek landed)
      reads on from there, record by record, until the next reposition drains it: what it took and what
      is queued are the log from that place on, in order and each record once. */
  lemma {:induction false} ReadsOnFrom(actions: seq<Action>, states: seq<State>, i: nat, j: nat, id: nat, place: nat)
    requires IsRun(actions, states) && i <= j < |states| && id < |states[i].subscriptions|
    requires ReadsFrom(states[i], id, place, [])
    requires forall k {:trigger actions[k]} :: i <= k < j ==> actions[k] != OfSubscription(id, DrainQueue)
    requires id < |states[j].subscriptions| && states[j].subscriptions[id].live
    ensures ReadsFrom(states[j], id, place, Taken(actions, states, i, j, id))
  {
    if i < j {
      var s, a := states[j - 1], actions[j - 1];
      RunKeepsQueues(actions, states, j - 1);
      SubscriptionsStay(actions, states, i, j - 1, id);
      assert Enabled(s, a) && states[j] == Do(s, a);
      LiveBefore(s, a, id);
      ReadsOnFrom(actions, states, i, j - 1, id, place);
      StepReadsOn(s, a, id, place, Taken(actions, states, i, j - 1, id));
    }
  }

  lemma {:induction false} SubscriptionsStay(actions: seq<Action>, states: seq<State>, i: nat, j: nat, id: nat)
    requires IsRun(actions, states) && i <= j < |states| && id < |states[i].subscriptions|
    ensures id < |states[j].subscriptions|
  {
    if i < j {
      SubscriptionsStay(actions, states, i, j - 1, id);
      assert Enabled(states[j - 1], actions[j - 1]) && states[j] == Do(states[j - 1], actions[j - 1]);
    }
  }

  /** How often the step was taken in the first `n`. */
  function Times(actions: seq<Action>, n: nat, a: Action): nat
    requires n <= |actions|
  {
    if n == 0 then 0 else Times(actions, n - 1, a) + if actions[n - 1] == a then 1 else 0
  }

  function OpenOf(s: State, id: nat): nat {
    if id < |s.subscriptions| then s.subscriptions[id].open else 0
  }

  lemma OneStepOfOpen(s: State, a: Action, id: nat)
    requires Enabled(s, a)
    ensures OpenOf(Do(s, a), id) + (if a == OfSubscription(id, SettleOne) then 1 else 0)
            == OpenOf(s, id) + if a == OfSubscription(id, Deliver) then 1 else 0
  {
  }

  /** The deliveries a subscription has open are those its handlers got and have not settled. */
  lemma {:induction false} OpenIsUnsettled(actions: seq<Action>, states: seq<State>, n: nat, id: nat)
    requires IsRun(actions, states) && n < |states|
    ensures OpenOf(states[n], id) + Times(actions, n, OfSubscription(id, SettleOne))
            == Times(actions, n, OfSubscription(id, Deliver))
  {
    if n > 0 {
      OpenIsUnsettled(actions, states, n - 1, id);
      assert Enabled(states[n - 1], actions[n - 1]) && states[n] == Do(states[n - 1], actions[n - 1]);
      OneStepOfOpen(states[n - 1], actions[n - 1], id);
    }
  }

  lemma GoneStepGetsNothing(s: State, a: Action, id: nat)
    requires Enabled(s, a) && id < |s.subscriptions| && !s.subscriptions[id].live
    ensures id < |Do(s, a).subscriptions|
    ensures var c, c' := s.subscriptions[id], Do(s, a).subscriptions[id];
            && !c'.live && c'.queue == c.queue && c'.poll == c.poll && c'.open <= c.open
  {
  }

  /** A subscription that was dropped is gone: from then on no append reaches it, and it takes no record
      and applies no seek. */
  lemma {:induction false} DroppedGetsNothing(actions: seq<Action>, states: seq<State>, m: nat, n: nat, id: nat)
    requires IsRun(actions, states) && m < n < |states| && actions[m] == Unsubscribe(id)
    ensures id < |states[m].subscriptions| && id < |states[n].subscriptions|
    ensures var c, c' := states[m].subscriptions[id], states[n].subscriptions[id];
            && !c'.live && c'.queue == c.queue && c'.poll == c.poll && c'.open <= c.open
    decreases n
  {
    var s, a := states[n - 1], actions[n - 1];
    assert Enabled(s, a) && states[n] == Do(s, a);
    if m < n - 1 {
      DroppedGetsNothing(actions, states, m, n - 1, id);
      GoneStepGetsNothing(s, a, id);
    }
  }
}
