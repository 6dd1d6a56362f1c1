/** Repositioning one shard while it is read, by one reader after another. Every reader has a
    generation gate of its own, which the coordinator registers with it. A seek takes the registered
    reader's handle, bumps that gate, then sends a command; the reader applies it between reads.
    Deliveries carry the generation their reader loaded before it read them, and are weighed against
    that reader's gate when they leave the channel and again when they are acknowledged. */
module Seek {
  import opened Wrappers
  import opened Cursor
  import opened Tracking

  /** Where a delivery is. `Cleared` has passed its acknowledgement's gate check and has not
      reached the watermark yet; `Discarded` failed a check and is dropped for good. */
  datatype Stage = Queued | Held | Cleared | Settled | Discarded

  datatype Delivery = Delivery(reader: nat, epoch: nat, stage: Stage)

  /** A delivery is named by its watermark and its index there. */
  type Ticket = (nat, nat)

  datatype Phase =
    | Top                       // draining commands, renewing, about to load the generation
    | Stamped(epoch: nat)       // generation loaded, records being read
    | Handing(epoch: nat, left: nat)
    | Draining                  // shard at its end: no command is applied any more
    | Stopped

  /** `tracker` is the watermark the reader registers on; a successful seek replaces it. */
  datatype Reader = Reader(gate: nat, commands: nat, tracker: nat, phase: Phase)

  datatype SeekPhase = Found | Bumped | Sent

  /** A seek, with the reader whose handle it took. */
  datatype Seeker = Seeker(reader: nat, phase: SeekPhase)

  /** A checkpoint write a settlement started: which delivery settled, and the delivery index of
      the same watermark its sequence number belongs to. */
  datatype Write = Write(ticket: Ticket, upto: nat)

  datatype State = State(readers: seq<Reader>, registered: Option<nat>, seekers: seq<Seeker>,
                         trackers: seq<Track<SequenceNumber>>, deliveries: map<Ticket, Delivery>,
                         writes: set<Write>)

  datatype Action =
    | StartReader
    | StopReader(reader: nat)
    | FindReader                // a seek takes the registered reader's handle
    | Bump(seeker: nat)
    | Send(seeker: nat)
    | ApplySeek(reader: nat, ok: bool)
    | LoadEpoch(reader: nat)
    | Read(reader: nat, count: nat)
    | HandOut(reader: nat, sequence: SequenceNumber)
    | EndBatch(reader: nat, last: bool)
    | Yield(ticket: Ticket)     // the consumer takes a delivery off the channel
    | CheckGate(ticket: Ticket) // an acknowledgement weighs its generation
    | SettleDelivery(ticket: Ticket)

  const INITIAL := State([], None, [], [], map[], {})

  predicate At(s: State, ticket: Ticket, stage: Stage) {
    ticket in s.deliveries && s.deliveries[ticket].stage == stage
  }

  predicate Seeking(s: State, seeker: nat, phase: SeekPhase) {
    seeker < |s.seekers| && s.seekers[seeker].phase == phase && s.seekers[seeker].reader < |s.readers|
  }

  predicate Weighable(s: State, ticket: Ticket, stage: Stage) {
    At(s, ticket, stage) && s.deliveries[ticket].reader < |s.readers|
  }

  predicate Enabled(s: State, a: Action) {
    match a
    case StartReader => forall r :: 0 <= r < |s.readers| ==> s.readers[r].phase.Stopped?
    case StopReader(r) => r < |s.readers| && !s.readers[r].phase.Stopped?
    case FindReader => s.registered.Some?
    case Bump(k) => Seeking(s, k, Found)
    case Send(k) => Seeking(s, k, Bumped)
    case ApplySeek(r, _) => r < |s.readers| && s.readers[r].phase.Top? && s.readers[r].commands > 0
    case LoadEpoch(r) => r < |s.readers| && s.readers[r].phase.Top?
    case Read(r, _) => r < |s.readers| && s.readers[r].phase.Stamped?
    case HandOut(r, _) =>
      r < |s.readers| && s.readers[r].phase.Handing? && s.readers[r].phase.left > 0
      && s.readers[r].tracker < |s.trackers|
    case EndBatch(r, _) => r < |s.readers| && s.readers[r].phase.Handing? && s.readers[r].phase.left == 0
    case Yield(ticket) => Weighable(s, ticket, Queued)
    case CheckGate(ticket) => Weighable(s, ticket, Held)
    case SettleDelivery(ticket) => At(s, ticket, Cleared) && ticket.0 < |s.trackers|
  }

  function SetReader(s: State, r: nat, reader: Reader): State
    requires r < |s.readers|
  {
    s.(readers := s.readers[r := reader])
  }

  function SetSeeker(s: State, k: nat, phase: SeekPhase): State
    requires k < |s.seekers|
  {
    s.(seekers := s.seekers[k := s.seekers[k].(phase := phase)])
  }

  /** The delivery passes if its generation is its reader's gate's, and is dropped otherwise. */
  function Weigh(s: State, ticket: Ticket, passed: Stage): State
    requires ticket in s.deliveries && s.deliveries[ticket].reader < |s.readers|
  {
    var d := s.deliveries[ticket];
    var current := d.epoch == s.readers[d.reader].gate;
    s.(deliveries := s.deliveries[ticket := d.(stage := if current then passed else Discarded)])
  }

  function DoHandOut(s: State, r: nat, sequence: SequenceNumber): State
    requires Enabled(s, HandOut(r, sequence))
  {
    var reader := s.readers[r];
    var t := s.trackers[reader.tracker];
    SetReader(s, r, reader.(phase := Handing(reader.phase.epoch, reader.phase.left - 1)))
    .(trackers := s.trackers[reader.tracker := Extend(t, sequence)],
      deliveries := s.deliveries[(reader.tracker, |t.deliveries|) := Delivery(r, reader.phase.epoch, Queued)])
  }

  function DoSettle(s: State, ticket: Ticket): State
    requires At(s, ticket, Cleared) && ticket.0 < |s.trackers|
  {
    var t := s.trackers[ticket.0];
    var marked := Mark(t, ticket.1);
    var s1 := s.(trackers := s.trackers[ticket.0 := marked],
                 deliveries := s.deliveries[ticket := s.deliveries[ticket].(stage := Settled)]);
    if Advanced(t, marked).Some? then s1.(writes := s.writes + {Write(ticket, Prefix(marked) - 1)}) else s1
  }

  function DoApplySeek(s: State, r: nat, ok: bool): State
    requires Enabled(s, ApplySeek(r, ok))
  {
    var reader := s.readers[r].(commands := s.readers[r].commands - 1);
    if ok then SetReader(s, r, reader.(tracker := |s.trackers|)).(trackers := s.trackers + [Track([], {})])
    else SetReader(s, r, reader)
  }

  function SetPhase(s: State, r: nat, phase: Phase): State
    requires r < |s.readers|
  {
    SetReader(s, r, s.readers[r].(phase := phase))
  }

  function Do(s: State, a: Action): State
    requires Enabled(s, a)
  {
    match a
    case StartReader =>
      s.(readers := s.readers + [Reader(0, 0, |s.trackers|, Top)], registered := Some(|s.readers|),
         trackers := s.trackers + [Track([], {})])
    case StopReader(r) => SetPhase(s, r, Stopped).(registered := None)
    case FindReader => s.(seekers := s.seekers + [Seeker(s.registered.value, Found)])
    case Bump(k) =>
      var r := s.seekers[k].reader;
      SetReader(SetSeeker(s, k, Bumped), r, s.readers[r].(gate := s.readers[r].gate + 1))
    case Send(k) =>
      var r := s.seekers[k].reader;
      SetReader(SetSeeker(s, k, Sent), r, s.readers[r].(commands := s.readers[r].commands + 1))
    case ApplySeek(r, ok) => DoApplySeek(s, r, ok)
    case LoadEpoch(r) => SetPhase(s, r, Stamped(s.readers[r].gate))
    case Read(r, count) => SetPhase(s, r, Handing(s.readers[r].phase.epoch, count))
    case HandOut(r, sequence) => DoHandOut(s, r, sequence)
    case EndBatch(r, last) => SetPhase(s, r, if last then Draining else Top)
    case Yield(ticket) => Weigh(s, ticket, Held)
    case CheckGate(ticket) => Weigh(s, ticket, Cleared)
    case SettleDelivery(ticket) => DoSettle(s, ticket)
  }

  // ----- The invariant -----

  /** No generation is ahead of the gate it was loaded from. */
  ghost predicate ReaderOk(s: State, r: Reader) {
    && r.tracker < |s.trackers|
    && (r.phase.Stamped? || r.phase.Handing? ==> r.phase.epoch <= r.gate)
  }

  ghost predicate TracksOk(s: State) {
    && (forall t :: 0 <= t < |s.trackers| ==> WellFormed(s.trackers[t]))
    && (forall d :: d in s.deliveries <==> d.0 < |s.trackers| && d.1 < |s.trackers[d.0].deliveries|)
    && (forall d :: d in s.deliveries ==>
          (s.deliveries[d].stage.Settled? <==> d.1 in s.trackers[d.0].done))
    && (forall w :: w in s.writes ==>
          w.ticket in s.deliveries && s.deliveries[w.ticket].stage.Settled?
          && w.upto < Prefix(s.trackers[w.ticket.0]))
  }

  ghost predicate EpochsOk(s: State) {
    && (forall r :: 0 <= r < |s.readers| ==> ReaderOk(s, s.readers[r]))
    && (s.registered.Some? ==> s.registered.value < |s.readers| && !s.readers[s.registered.value].phase.Stopped?)
    && (forall k :: 0 <= k < |s.seekers| ==> s.seekers[k].reader < |s.readers|)
    && (forall d :: d in s.deliveries ==>
          s.deliveries[d].reader < |s.readers|
          && s.deliveries[d].epoch <= s.readers[s.deliveries[d].reader].gate)
  }

  ghost predicate Inv(s: State) {
    TracksOk(s) && EpochsOk(s)
  }

  lemma HandOutKeepsTracks(s: State, r: nat, sequence: SequenceNumber)
    requires TracksOk(s) && Enabled(s, HandOut(r, sequence))
    ensures TracksOk(DoHandOut(s, r, sequence))
  {
    ExtendKeepsPrefix(s.trackers[s.readers[r].tracker], sequence);
  }

  lemma HandOutKeepsEpochs(s: State, r: nat, sequence: SequenceNumber)
    requires EpochsOk(s) && Enabled(s, HandOut(r, sequence))
    ensures EpochsOk(DoHandOut(s, r, sequence))
  {
    assert ReaderOk(s, s.readers[r]);
  }

  lemma HandOutKeeps(s: State, r: nat, sequence: SequenceNumber)
    requires Inv(s) && Enabled(s, HandOut(r, sequence))
    ensures Inv(Do(s, HandOut(r, sequence)))
  {
    HandOutKeepsTracks(s, r, sequence);
    HandOutKeepsEpochs(s, r, sequence);
  }

  lemma SettleKeepsTracks(s: State, ticket: Ticket)
    requires TracksOk(s) && At(s, ticket, Cleared) && ticket.0 < |s.trackers|
    ensures TracksOk(DoSettle(s, ticket))
  {
    MarkGrowsPrefix(s.trackers[ticket.0], ticket.1);
    var s' := DoSettle(s, ticket);
    forall w | w in s'.writes
      ensures w.ticket in s'.deliveries && s'.deliveries[w.ticket].stage.Settled?
      ensures w.upto < Prefix(s'.trackers[w.ticket.0])
    {
    }
  }

  lemma SettleKeepsEpochs(s: State, ticket: Ticket)
    requires EpochsOk(s) && At(s, ticket, Cleared) && ticket.0 < |s.trackers|
    ensures EpochsOk(DoSettle(s, ticket))
  {
  }

  lemma SettleKeeps(s: State, ticket: Ticket)
    requires Inv(s) && Enabled(s, SettleDelivery(ticket))
    ensures Inv(Do(s, SettleDelivery(ticket)))
  {
    SettleKeepsTracks(s, ticket);
    SettleKeepsEpochs(s, ticket);
  }

  /** A fresh watermark: for a new reader, or in place of an old one. */
  lemma NewTrackKeeps(s: State)
    requires TracksOk(s)
    ensures TracksOk(s.(trackers := s.trackers + [Track([], {})]))
  {
  }

  /** A step of one reader, or of a seek on it, that leaves watermarks and deliveries alone. */
  lemma ReaderKeeps(s: State, r: nat, reader: Reader)
    requires Inv(s) && r < |s.readers| && ReaderOk(s, reader) && s.readers[r].gate <= reader.gate
    requires reader.phase.Stopped? ==> s.registered != Some(r)
    ensures Inv(SetReader(s, r, reader))
  {
  }

  lemma WeighKeeps(s: State, ticket: Ticket, stage: Stage, passed: Stage)
    requires Inv(s) && Weighable(s, ticket, stage) && !stage.Settled? && !passed.Settled?
    ensures Inv(Weigh(s, ticket, passed))
  {
  }

  lemma StopKeeps(s: State, r: nat)
    requires Inv(s) && Enabled(s, StopReader(r))
    ensures Inv(Do(s, StopReader(r)))
  {
    var s1 := s.(registered := None);
    assert ReaderOk(s1, s1.readers[r]);
    ReaderKeeps(s1, r, s1.readers[r].(phase := Stopped));
  }

  lemma SeekerKeeps(s: State, a: Action)
    requires Inv(s) && Enabled(s, a) && (a.Bump? || a.Send?)
    ensures Inv(Do(s, a))
  {
    var s1 := SetSeeker(s, a.seeker, if a.Bump? then Bumped else Sent);
    var r := s.seekers[a.seeker].reader;
    assert Inv(s1) && ReaderOk(s1, s1.readers[r]);
    ReaderKeeps(s1, r, Do(s, a).readers[r]);
  }

  lemma ReaderStepKeeps(s: State, a: Action)
    requires Inv(s) && Enabled(s, a) && (a.LoadEpoch? || a.Read? || a.EndBatch?)
    ensures Inv(Do(s, a))
  {
    assert ReaderOk(s, s.readers[a.reader]);
    ReaderKeeps(s, a.reader, Do(s, a).readers[a.reader]);
  }

  lemma ApplyKeeps(s: State, r: nat, ok: bool)
    requires Inv(s) && Enabled(s, ApplySeek(r, ok))
    ensures Inv(DoApplySeek(s, r, ok))
  {
    NewTrackKeeps(s);
    var s1 := if ok then s.(trackers := s.trackers + [Track([], {})]) else s;
    assert Inv(s1) && ReaderOk(s1, s1.readers[r]);
    ReaderKeeps(s1, r, DoApplySeek(s, r, ok).readers[r]);
  }

  lemma StartKeeps(s: State)
    requires Inv(s) && Enabled(s, StartReader)
    ensures Inv(Do(s, StartReader))
  {
    NewTrackKeeps(s);
  }

  lemma FindKeeps(s: State)
    requires Inv(s) && Enabled(s, FindReader)
    ensures Inv(Do(s, FindReader))
  {
  }

  lemma ShardStepKeeps(s: State, a: Action)
    requires Inv(s) && Enabled(s, a)
    requires a.StartReader? || a.StopReader? || a.FindReader? || a.Bump? || a.Send? || a.ApplySeek?
    ensures Inv(Do(s, a))
  {
    match a {
      case StartReader => StartKeeps(s);
      case StopReader(r) => StopKeeps(s, r);
      case FindReader => FindKeeps(s);
      case ApplySeek(r, ok) => ApplyKeeps(s, r, ok);
      case _ => SeekerKeeps(s, a);
    }
  }

  lemma DeliveryStepKeeps(s: State, a: Action)
    requires Inv(s) && Enabled(s, a) && (a.HandOut? || a.Yield? || a.CheckGate? || a.SettleDelivery?)
    ensures Inv(Do(s, a))
  {
    match a {
      case HandOut(r, sequence) => HandOutKeeps(s, r, sequence);
      case Yield(ticket) => WeighKeeps(s, ticket, Queued, Held);
      case CheckGate(ticket) => WeighKeeps(s, ticket, Held, Cleared);
      case SettleDelivery(ticket) => SettleKeeps(s, ticket);
    }
  }

  lemma StepKeeps(s: State, a: Action)
    requires Inv(s) && Enabled(s, a)
    ensures Inv(Do(s, a))
  {
    if a.LoadEpoch? || a.Read? || a.EndBatch? {
      ReaderStepKeeps(s, a);
    } else if a.HandOut? || a.Yield? || a.CheckGate? || a.SettleDelivery? {
      DeliveryStepKeeps(s, a);
    } else {
      ShardStepKeeps(s, a);
    }
  }

  // ----- Runs -----

  /** A run from any state the invariant holds of, `INITIAL` among them. */
  ghost predicate IsRun(actions: seq<Action>, states: seq<State>) {
    && |states| == |actions| + 1
    && Inv(states[0])
    && forall i {:trigger actions[i]} :: 0 <= i < |actions| ==>
         Enabled(states[i], actions[i]) && states[i + 1] == Do(states[i], actions[i])
  }

  lemma InitialHolds()
    ensures Inv(INITIAL)
  {
  }

  lemma {:induction false} RunKeeps(actions: seq<Action>, states: seq<State>, n: nat)
    requires IsRun(actions, states) && n < |states|
    ensures Inv(states[n])
  {
    if n > 0 {
      RunKeeps(actions, states, n - 1);
      StepKeeps(states[n - 1], actions[n - 1]);
    }
  }

  /** Not past the gate check of its acknowledgement. */
  predicate Unchecked(s: State, ticket: Ticket) {
    ticket in s.deliveries && (s.deliveries[ticket].stage.Queued? || s.deliveries[ticket].stage.Held?)
  }

  /** Unchecked, and of an older generation than its reader's gate is at. */
  predicate Stale(s: State, ticket: Ticket) {
    Unchecked(s, ticket) && s.deliveries[ticket].reader < |s.readers|
    && s.deliveries[ticket].epoch < s.readers[s.deliveries[ticket].reader].gate
  }

  ghost predicate GatesGrow(s: State, s': State) {
    && |s.readers| <= |s'.readers|
    && forall r :: 0 <= r < |s.readers| ==> s.readers[r].gate <= s'.readers[r].gate
  }

  /** A delivery keeps its reader and its generation; a stale one stays so or is discarded, and a
      discarded one stays that. */
  predicate Carries(s: State, s': State, ticket: Ticket) {
    ticket in s.deliveries ==>
      && ticket in s'.deliveries
      && s'.deliveries[ticket].reader == s.deliveries[ticket].reader
      && s'.deliveries[ticket].epoch == s.deliveries[ticket].epoch
      && (At(s, ticket, Discarded) ==> At(s', ticket, Discarded))
      && (Stale(s, ticket) ==> Stale(s', ticket) || At(s', ticket, Discarded))
  }

  lemma GatesGrowOneStep(s: State, a: Action)
    requires Enabled(s, a)
    ensures GatesGrow(s, Do(s, a))
  {
  }

  /** A step that leaves the deliveries alone, or adds one. */
  lemma QuietStepCarries(s: State, s': State, ticket: Ticket)
    requires GatesGrow(s, s')
    requires ticket in s.deliveries ==> ticket in s'.deliveries && s'.deliveries[ticket] == s.deliveries[ticket]
    ensures Carries(s, s', ticket)
  {
  }

  lemma OneStep(s: State, a: Action, ticket: Ticket)
    requires Inv(s) && Enabled(s, a)
    ensures GatesGrow(s, Do(s, a)) && Carries(s, Do(s, a), ticket)
  {
    GatesGrowOneStep(s, a);
    match a {
      case Yield(_) =>
      case CheckGate(_) =>
      case SettleDelivery(_) =>
      case _ => QuietStepCarries(s, Do(s, a), ticket);
    }
  }

  lemma CarriesOn(s: State, s': State, s'': State, ticket: Ticket)
    requires GatesGrow(s, s') && GatesGrow(s', s'') && Carries(s, s', ticket) && Carries(s', s'', ticket)
    ensures GatesGrow(s, s'') && Carries(s, s'', ticket)
  {
  }

  /** Between two moments of a run no gate moves back, a delivery stamped before a bump of its
      reader's gate and unchecked at the bump stays unchecked or is discarded, and what is discarded
      stays so: for every reader the shard ever has, stopped ones included. */
  lemma {:induction false} StaleStaysStale(actions: seq<Action>, states: seq<State>, i: nat, j: nat, ticket: Ticket)
    requires IsRun(actions, states) && i <= j < |states|
    ensures GatesGrow(states[i], states[j]) && Carries(states[i], states[j], ticket)
    decreases j - i
  {
    if i < j {
      StaleStaysStale(actions, states, i, j - 1, ticket);
      RunKeeps(actions, states, j - 1);
      OneStep(states[j - 1], actions[j - 1], ticket);
      CarriesOn(states[i], states[j - 1], states[j], ticket);
    }
  }

  /** Once its reader's gate is past its generation, a delivery is not handed to the consumer. */
  lemma NothingStaleIsYielded(actions: seq<Action>, states: seq<State>, i: nat, j: nat, ticket: Ticket)
    requires IsRun(actions, states) && i <= j < |actions|
    requires actions[j] == Yield(ticket)
    requires states[j].deliveries[ticket].reader < |states[i].readers|
    requires states[j].deliveries[ticket].epoch < states[i].readers[states[j].deliveries[ticket].reader].gate
    ensures states[j + 1].deliveries[ticket].stage == Discarded
  {
    StaleStaysStale(actions, states, i, j, ticket);
    assert states[j + 1] == Do(states[j], actions[j]);
  }

  /** Nor does its acknowledgement, unless it passed its gate check before the bump, ever reach the
      watermark or the store. */
  lemma NothingStaleIsWritten(actions: seq<Action>, states: seq<State>, i: nat, j: nat, ticket: Ticket)
    requires IsRun(actions, states) && i <= j < |states|
    requires Stale(states[i], ticket)
    ensures ticket in states[j].deliveries && !states[j].deliveries[ticket].stage.Settled?
    ensures ticket.0 < |states[j].trackers| && ticket.1 !in states[j].trackers[ticket.0].done
    ensures forall w :: w in states[j].writes ==> w.ticket != ticket
  {
    StaleStaysStale(actions, states, i, j, ticket);
    RunKeeps(actions, states, j);
  }

  /** A watermark a failed seek kept never passes a delivery the bump discarded, nor one it is
      about to: no write of that watermark, at any moment of any run, names a delivery at or after
      it, whatever is acknowledged. */
  lemma KeptWatermarkStopsAtTheDiscarded(actions: seq<Action>, states: seq<State>, n: nat, ticket: Ticket, w: Write)
    requires IsRun(actions, states) && n < |states|
    requires ticket in states[n].deliveries && !states[n].deliveries[ticket].stage.Settled?
    requires w in states[n].writes && w.ticket.0 == ticket.0
    ensures w.upto < ticket.1
    ensures ticket.0 < |states[n].trackers| && Prefix(states[n].trackers[ticket.0]) <= ticket.1
  {
    RunKeeps(actions, states, n);
    var t := states[n].trackers[ticket.0];
    if ticket.1 < Prefix(t) {
      assert false;
    }
  }

  // ----- What a settlement writes -----

  /** The step settles the write's delivery, and thereby moves its watermark to what the write names. */
  predicate StartsWrite(s: State, a: Action, s': State, w: Write) {
    && a == SettleDelivery(w.ticket) && w.ticket.0 < |s.trackers| && w.ticket.0 < |s'.trackers|
    && Prefix(s.trackers[w.ticket.0]) < Prefix(s'.trackers[w.ticket.0]) == w.upto + 1
  }

  lemma OneStepOfWrites(s: State, a: Action, w: Write)
    requires Enabled(s, a)
    ensures w in Do(s, a).writes <==> w in s.writes || StartsWrite(s, a, Do(s, a), w)
  {
  }

  /** Every settlement that moves its watermark starts a write, of what the watermark reached, and there
      is no other write. */
  lemma {:induction false} WritesAreSettlements(actions: seq<Action>, states: seq<State>, n: nat, w: Write)
    requires IsRun(actions, states) && states[0] == INITIAL && n < |states|
    ensures w in states[n].writes
            <==> exists k {:trigger actions[k]} :: 0 <= k < n && StartsWrite(states[k], actions[k], states[k + 1], w)
  {
    if n > 0 {
      WritesAreSettlements(actions, states, n - 1, w);
      assert Enabled(states[n - 1], actions[n - 1]) && states[n] == Do(states[n - 1], actions[n - 1]);
      OneStepOfWrites(states[n - 1], actions[n - 1], w);
    }
  }

  // ----- What a delivery is stamped with -----

  /** The reader's phase carries the generation it loaded last. */
  predicate Carrying(r: Reader, epoch: nat) {
    r.phase.Stamped? || r.phase.Handing? ==> r.phase.epoch == epoch
  }

  ghost predicate NotLoaded(actions: seq<Action>, from: nat, to: nat, r: nat)
    requires to <= |actions|
  {
    forall k :: from < k < to ==> actions[k] != LoadEpoch(r)
  }

  lemma OneStepCarries(s: State, a: Action, r: nat, epoch: nat)
    requires Enabled(s, a) && r < |s.readers|
    requires if a == LoadEpoch(r) then epoch == s.readers[r].gate else Carrying(s.readers[r], epoch)
    ensures r < |Do(s, a).readers| && Carrying(Do(s, a).readers[r], epoch)
  {
  }

  /** Until it loads again, a reader hands out under the generation its gate was at when it loaded. */
  lemma {:induction false} LoadedEpochStays(actions: seq<Action>, states: seq<State>, i: nat, n: nat, r: nat)
    requires IsRun(actions, states) && i < n < |states| && actions[i] == LoadEpoch(r) && NotLoaded(actions, i, n, r)
    ensures r < |states[i].readers| && r < |states[n].readers|
    ensures Carrying(states[n].readers[r], states[i].readers[r].gate)
    decreases n
  {
    assert Enabled(states[i], actions[i]);
    assert states[n] == Do(states[n - 1], actions[n - 1]);
    if i < n - 1 {
      LoadedEpochStays(actions, states, i, n - 1, r);
    }
    OneStepCarries(states[n - 1], actions[n - 1], r, states[i].readers[r].gate);
  }

  /** Whether a step of the run bumps the reader's gate. */
  predicate BumpsGate(s: State, a: Action, r: nat) {
    a.Bump? && a.seeker < |s.seekers| && s.seekers[a.seeker].reader == r
  }

  ghost predicate BumpedBetween(actions: seq<Action>, states: seq<State>, from: nat, to: nat, r: nat)
    requires to <= |actions| < |states|
  {
    exists j {:trigger actions[j]} :: from <= j < to && BumpsGate(states[j], actions[j], r)
  }

  lemma OneStepGate(s: State, a: Action, r: nat)
    requires Enabled(s, a) && r < |s.readers|
    ensures r < |Do(s, a).readers|
    ensures Do(s, a).readers[r].gate == s.readers[r].gate + if BumpsGate(s, a, r) then 1 else 0
  {
  }

  lemma BumpedNext(actions: seq<Action>, states: seq<State>, from: nat, to: nat, r: nat)
    requires from < to <= |actions| < |states|
    ensures BumpedBetween(actions, states, from, to, r)
            <==> BumpedBetween(actions, states, from, to - 1, r) || BumpsGate(states[to - 1], actions[to - 1], r)
  {
  }

  lemma OneStepOfGate(actions: seq<Action>, states: seq<State>, n: nat, r: nat)
    requires IsRun(actions, states) && n < |actions| && r < |states[n].readers|
    ensures r < |states[n + 1].readers|
    ensures states[n + 1].readers[r].gate
            == states[n].readers[r].gate + if BumpsGate(states[n], actions[n], r) then 1 else 0
  {
    assert Enabled(states[n], actions[n]) && states[n + 1] == Do(states[n], actions[n]);
    OneStepGate(states[n], actions[n], r);
  }

  /** A gate moves exactly when it is bumped. */
  lemma {:induction false} GateMovesWhenBumped(actions: seq<Action>, states: seq<State>, i: nat, n: nat, r: nat)
    requires IsRun(actions, states) && i <= n <= |actions| && r < |states[i].readers|
    ensures r < |states[n].readers| && states[i].readers[r].gate <= states[n].readers[r].gate
    ensures states[i].readers[r].gate < states[n].readers[r].gate <==> BumpedBetween(actions, states, i, n, r)
    decreases n
  {
    if i < n {
      GateMovesWhenBumped(actions, states, i, n - 1, r);
      OneStepOfGate(actions, states, n - 1, r);
      BumpedNext(actions, states, i, n, r);
    }
  }

  /** The delivery a hand-out makes. */
  function Made(s: State, r: nat): Ticket
    requires r < |s.readers| && s.readers[r].tracker < |s.trackers|
  {
    (s.readers[r].tracker, |s.trackers[s.readers[r].tracker].deliveries|)
  }

  /** A batch in flight at a bump: a record handed out after the bump, under a generation loaded before
      it, is stale from the start, so it is never yielded. Handed out with no bump since the load, it is
      current. */
  lemma BatchInFlightIsStale(actions: seq<Action>, states: seq<State>, i: nat, k: nat, r: nat)
    requires IsRun(actions, states) && i < k < |actions| && actions[i] == LoadEpoch(r)
    requires actions[k].HandOut? && actions[k].reader == r && NotLoaded(actions, i, k, r)
    ensures r < |states[k].readers| && states[k].readers[r].tracker < |states[k].trackers|
    ensures var made := Made(states[k], r);
            && At(states[k + 1], made, Queued) && states[k + 1].deliveries[made].reader == r
            && (if BumpedBetween(actions, states, i, k, r) then Stale(states[k + 1], made)
                else Current(states[k + 1], made, Queued))
  {
    LoadedEpochStays(actions, states, i, k, r);
    GateMovesWhenBumped(actions, states, i, k, r);
    assert Enabled(states[k], actions[k]) && states[k + 1] == Do(states[k], actions[k]);
  }

  /** So no record read before a bump and handed out after it is yielded. */
  lemma BatchInFlightIsNotYielded(actions: seq<Action>, states: seq<State>, i: nat, k: nat, j: nat, r: nat)
    requires IsRun(actions, states) && i < k < j < |actions| && actions[i] == LoadEpoch(r)
    requires actions[k].HandOut? && actions[k].reader == r && NotLoaded(actions, i, k, r)
    requires BumpedBetween(actions, states, i, k, r)
    ensures r < |states[k].readers| && states[k].readers[r].tracker < |states[k].trackers|
    ensures var made := Made(states[k], r);
            actions[j] == Yield(made) ==> At(states[j + 1], made, Discarded)
  {
    BatchInFlightIsStale(actions, states, i, k, r);
    var made := Made(states[k], r);
    StaleStaysStale(actions, states, k + 1, j, made);
    if actions[j] == Yield(made) {
      NothingStaleIsYielded(actions, states, k + 1, j, made);
      assert Enabled(states[j], actions[j]) && states[j + 1] == Do(states[j], actions[j]);
    }
  }

  // ----- What a seek does to the watermark -----

  /** Where the commands a reader has not applied come from: every one sent is applied once. */
  function Sends(actions: seq<Action>, states: seq<State>, n: nat, r: nat): nat
    requires n <= |actions| < |states|
  {
    if n == 0 then 0
    else
      var s, a := states[n - 1], actions[n - 1];
      Sends(actions, states, n - 1, r)
      + if a.Send? && a.seeker < |s.seekers| && s.seekers[a.seeker].reader == r then 1 else 0
  }

  function Applies(actions: seq<Action>, n: nat, r: nat): nat
    requires n <= |actions|
  {
    if n == 0 then 0
    else Applies(actions, n - 1, r) + if actions[n - 1].ApplySeek? && actions[n - 1].reader == r then 1 else 0
  }

  function CommandsOf(s: State, r: nat): nat {
    if r < |s.readers| then s.readers[r].commands else 0
  }

  lemma OneStepOfCommands(s: State, a: Action, r: nat)
    requires Inv(s) && Enabled(s, a)
    ensures CommandsOf(Do(s, a), r) + (if a.ApplySeek? && a.reader == r then 1 else 0)
            == CommandsOf(s, r) + (if a.Send? && s.seekers[a.seeker].reader == r then 1 else 0)
  {
  }

  lemma {:induction false} CommandsAreAppliedOnce(actions: seq<Action>, states: seq<State>, n: nat, r: nat)
    requires IsRun(actions, states) && states[0] == INITIAL && n <= |actions|
    ensures Applies(actions, n, r) + CommandsOf(states[n], r) == Sends(actions, states, n, r)
  {
    if n > 0 {
      CommandsAreAppliedOnce(actions, states, n - 1, r);
      RunKeeps(actions, states, n - 1);
      assert Enabled(states[n - 1], actions[n - 1]) && states[n] == Do(states[n - 1], actions[n - 1]);
      OneStepOfCommands(states[n - 1], actions[n - 1], r);
    }
  }

  /** A seek that could be applied puts the reader on a watermark that nothing is on, so what was handed
      out before cannot move what comes after; one that could not leaves it where it is. */
  lemma AppliedSeekStartsAfresh(s: State, r: nat, ok: bool)
    requires Inv(s) && Enabled(s, ApplySeek(r, ok))
    ensures var s' := Do(s, ApplySeek(r, ok));
            && s'.deliveries == s.deliveries && s'.readers[r].gate == s.readers[r].gate
            && (!ok ==> s'.readers[r].tracker == s.readers[r].tracker && s'.trackers == s.trackers)
            && (ok ==>
                  && s'.readers[r].tracker < |s'.trackers|
                  && (forall d :: d in s'.deliveries ==> d.0 != s'.readers[r].tracker)
                  && (forall t :: 0 <= t < |s.readers| && t != r ==> s'.readers[t].tracker != s'.readers[r].tracker))
  {
    assert forall t :: 0 <= t < |s.readers| ==> ReaderOk(s, s.readers[t]);
  }

  // ----- A shard read to its end -----

  /** What only a reader that still reads does. */
  predicate Reads(a: Action, r: nat) {
    a == LoadEpoch(r) || (a.ApplySeek? && a.reader == r) || (a.Read? && a.reader == r) || (a.HandOut? && a.reader == r)
  }

  ghost predicate IsDone(s: State, r: nat) {
    r < |s.readers| && (s.readers[r].phase.Draining? || s.readers[r].phase.Stopped?)
  }

  lemma DoneStays(s: State, a: Action, r: nat)
    requires Enabled(s, a) && IsDone(s, r)
    ensures !Reads(a, r) && IsDone(Do(s, a), r)
  {
  }

  /** After its last batch a reader reads no more and applies no command, however many seeks reach it: they
      move its gate, and no delivery is made under what they moved it to. */
  lemma {:induction false} LastBatchEndsTheReading(actions: seq<Action>, states: seq<State>, m: nat, n: nat, r: nat)
    requires IsRun(actions, states) && m < n < |states| && actions[m] == EndBatch(r, true)
    ensures IsDone(states[n], r)
    ensures n < |actions| ==> !Reads(actions[n], r)
    decreases n
  {
    assert Enabled(states[n - 1], actions[n - 1]) && states[n] == Do(states[n - 1], actions[n - 1]);
    if m < n - 1 {
      LastBatchEndsTheReading(actions, states, m, n - 1, r);
      DoneStays(states[n - 1], actions[n - 1], r);
    }
    if n < |actions| {
      assert Enabled(states[n], actions[n]);
      DoneStays(states[n], actions[n], r);
    }
  }

  // ----- What a seek discards -----

  ghost predicate IsRunTo(actions: seq<Action>, states: seq<State>, s: State, s': State) {
    IsRun(actions, states) && states[0] == s && states[|actions|] == s'
  }

  ghost predicate Reaches(s: State, s': State) {
    exists actions, states :: IsRunTo(actions, states, s, s')
  }

  /** Whatever happens from `s` on, the delivery never reaches its watermark. */
  ghost predicate Doomed(s: State, ticket: Ticket) {
    forall s' :: Reaches(s, s') ==> !At(s', ticket, Settled)
  }

  lemma ReachesItself(s: State)
    requires Inv(s)
    ensures Reaches(s, s)
  {
    assert IsRunTo([], [s], s, s);
  }

  lemma RunGoesOn(actions: seq<Action>, states: seq<State>, a: Action)
    requires IsRun(actions, states) && Enabled(states[|actions|], a)
    ensures IsRun(actions + [a], states + [Do(states[|actions|], a)])
  {
    var longer := states + [Do(states[|actions|], a)];
    forall i | 0 <= i < |actions| + 1
      ensures Enabled(longer[i], (actions + [a])[i]) && longer[i + 1] == Do(longer[i], (actions + [a])[i])
    {
      if i < |actions| {
        assert longer[i] == states[i] && longer[i + 1] == states[i + 1];
      }
    }
  }

  lemma ReachesNext(s: State, s': State, a: Action)
    requires Reaches(s, s') && Enabled(s', a)
    ensures Reaches(s, Do(s', a))
  {
    var actions, states :| IsRunTo(actions, states, s, s');
    RunGoesOn(actions, states, a);
    assert IsRunTo(actions + [a], states + [Do(s', a)], s, Do(s', a));
  }

  predicate Current(s: State, ticket: Ticket, stage: Stage) {
    Weighable(s, ticket, stage) && s.deliveries[ticket].epoch == s.readers[s.deliveries[ticket].reader].gate
  }

  lemma CurrentPasses(s: State, ticket: Ticket)
    ensures Current(s, ticket, Queued) ==> Current(Do(s, Yield(ticket)), ticket, Held)
    ensures Current(s, ticket, Held) ==> Current(Do(s, CheckGate(ticket)), ticket, Cleared)
  {
  }

  lemma HeldDeliverySettles(s: State, s': State, ticket: Ticket)
    requires Reaches(s, s') && Current(s', ticket, Held) && ticket.0 < |s'.trackers|
    ensures !Doomed(s, ticket)
  {
    CurrentPasses(s', ticket);
    ReachesNext(s, s', CheckGate(ticket));
    var s1 := Do(s', CheckGate(ticket));
    ReachesNext(s, s1, SettleDelivery(ticket));
    assert At(Do(s1, SettleDelivery(ticket)), ticket, Settled);
  }

  /** A delivery of the generation its reader's gate is at: the consumer takes it, and acknowledges it. */
  lemma CurrentDeliverySettles(s: State, ticket: Ticket)
    requires Inv(s) && Unchecked(s, ticket) && !Stale(s, ticket)
    ensures !Doomed(s, ticket)
  {
    ReachesItself(s);
    if s.deliveries[ticket].stage.Held? {
      HeldDeliverySettles(s, s, ticket);
    } else {
      assert Current(s, ticket, Queued);
      CurrentPasses(s, ticket);
      ReachesNext(s, s, Yield(ticket));
      HeldDeliverySettles(s, Do(s, Yield(ticket)), ticket);
    }
  }

  /** What a seek discards, exactly: of the shard's deliveries that no acknowledgement has checked
      yet, those of the reader whose handle the seek took, besides those discarded or stale already.
      A delivery of an earlier reader that is still in the channel or with the consumer is weighed
      against its own reader's gate, which the seek does not move. */
  lemma SeekDiscardsExactly(s: State, k: nat, ticket: Ticket)
    requires Inv(s) && Enabled(s, Bump(k)) && Unchecked(s, ticket)
    ensures Doomed(Do(s, Bump(k)), ticket)
            <==> s.deliveries[ticket].reader == s.seekers[k].reader || Stale(s, ticket)
  {
    var s' := Do(s, Bump(k));
    StepKeeps(s, Bump(k));
    if Stale(s', ticket) {
      forall end | Reaches(s', end)
        ensures !At(end, ticket, Settled)
      {
        var actions, states :| IsRunTo(actions, states, s', end);
        NothingStaleIsWritten(actions, states, 0, |actions|, ticket);
      }
    } else {
      CurrentDeliverySettles(s', ticket);
    }
  }

  /** A run: a reader hands out a record and stops, and a seek finds its successor. */
  function LateAction(i: nat): Action {
    match i
    case 0 => StartReader
    case 1 => LoadEpoch(0)
    case 2 => Read(0, 1)
    case 3 => HandOut(0, 5)
    case 4 => StopReader(0)
    case 5 => StartReader
    case 6 => FindReader
    case _ => Bump(0)
  }

  function LateState(i: nat): State {
    var first, second := Reader(0, 0, 0, Stopped), Reader(0, 0, 1, Top);
    var tracks := [Track([5], {})];
    var queued := map[(0, 0) := Delivery(0, 0, Queued)];
    match i
    case 0 => INITIAL
    case 1 => State([first.(phase := Top)], Some(0), [], [Track([], {})], map[], {})
    case 2 => State([first.(phase := Stamped(0))], Some(0), [], [Track([], {})], map[], {})
    case 3 => State([first.(phase := Handing(0, 1))], Some(0), [], [Track([], {})], map[], {})
    case 4 => State([first.(phase := Handing(0, 0))], Some(0), [], tracks, queued, {})
    case 5 => State([first], None, [], tracks, queued, {})
    case 6 => State([first, second], Some(1), [], tracks + [Track([], {})], queued, {})
    case 7 => State([first, second], Some(1), [Seeker(1, Found)], tracks + [Track([], {})], queued, {})
    case _ => State([first, second.(gate := 1)], Some(1), [Seeker(1, Bumped)], tracks + [Track([], {})], queued, {})
  }

  lemma LateStepFirst(i: nat)
    requires i < 4
    ensures Enabled(LateState(i), LateAction(i)) && LateState(i + 1) == Do(LateState(i), LateAction(i))
  {
    var none: seq<SequenceNumber> := [];
    assert none + [5] == [5];
  }

  lemma LateStepSecond(i: nat)
    requires 4 <= i < 8
    ensures Enabled(LateState(i), LateAction(i)) && LateState(i + 1) == Do(LateState(i), LateAction(i))
  {
  }

  lemma LateEnds()
    ensures Inv(LateState(0)) && LateState(0) == INITIAL && LateAction(7) == Bump(0)
    ensures At(LateState(8), (0, 0), Queued) && !Stale(LateState(8), (0, 0))
  {
    InitialHolds();
  }

  /** So a seek does not discard everything the shard has delivered: here the gate is bumped, and the
      record the earlier reader handed out may still be yielded and settle. */
  lemma EarlierReaderOutlivesTheSeek() returns (actions: seq<Action>, states: seq<State>)
    ensures IsRun(actions, states) && states[0] == INITIAL && |actions| == 8 && actions[7] == Bump(0)
    ensures At(states[8], (0, 0), Queued) && !Doomed(states[8], (0, 0))
  {
    actions := seq(8, i => if i >= 0 then LateAction(i) else StartReader);
    states := seq(9, i => if i >= 0 then LateState(i) else INITIAL);
    forall i | 0 <= i < 8
      ensures Enabled(states[i], actions[i]) && states[i + 1] == Do(states[i], actions[i])
    {
      if i < 4 {
        LateStepFirst(i);
      } else {
        LateStepSecond(i);
      }
    }
    LateEnds();
    RunKeeps(actions, states, 8);
    CurrentDeliverySettles(states[8], (0, 0));
  }
}
