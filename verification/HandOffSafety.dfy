/** Over a store that drops the recorded opening, no iterator of the one instance ever skips a record
    that was handed out and never settled. A state is safe either because a reader or the coordinator
    holds a cursor that reads everything unsettled again, or because no cursor is needed any more. */
module HandOffSafety {
  import opened Wrappers
  import opened Cursor
  import opened Tracking
  import opened Lease
  import opened ShardProtocol
  import opened ShardSafety
  import opened HandOff
  import opened Anchor

  /** `opening` only names the place the proofs count from. */
  ghost predicate SafeInv(s: Shard, me: Instance) {
    && Ours(s, me)
    && ((exists from :: Anchored(s.(opening := from), me))
        || (OpensAtTip(me) && exists from :: SoloInv(s.(opening := from), me)))
  }

  lemma FreshIsSafe(s: Shard, me: Instance)
    requires Fresh(s) && !s.keeps
    ensures SafeInv(s, me)
  {
    FreshIsOurs(s, me);
    if OpensAtTip(me) {
      assert SoloInv(s.(opening := None), me);
    } else {
      var anchor := Some(Point(FreshCursor(me, Opens), me.stamp));
      assert Anchored(s.(opening := anchor), me);
    }
  }

  // ----- Losing a cursor that is needed no more -----

  /** Nothing is left to hand out between the anchor and the place the proof counted from. */
  ghost predicate NothingBetween(s: Shard, anchor: nat, from: nat) {
    anchor <= from && forall q: nat :: anchor <= q < from && q < |s.log| ==> s.log[q].aggregated
  }

  lemma TrackFromAnchor(s: Shard, t: Track<SequenceNumber>, anchor: nat)
    requires s.opening.Some? && NothingBetween(s, anchor, s.opening.value) && TrackOk(s, t)
    ensures TrackOk(s.(opening := Some(anchor)), t)
  {
    forall i | 0 <= i < |t.deliveries|
      ensures Accounted(s.(opening := Some(anchor)), t, i + 1, anchor, t.deliveries[i] + 1)
    {
      assert Accounted(s, t, i + 1, s.opening.value, t.deliveries[i] + 1);
    }
  }

  /** What a loss leaves behind: no reader that reads, and no cursor kept. */
  ghost predicate LeftWithout(s: Shard, s': Shard, me: Instance) {
    && s' == s.(readers := s'.readers, rewinds := s'.rewinds) && |s'.readers| == |s.readers|
    && me.owner !in s'.rewinds
    && forall i :: 0 <= i < |s.readers| ==>
         && s'.readers[i].track == s.readers[i].track && s'.readers[i].lineage == s.readers[i].lineage
         && (Held(s'.readers[i]) ==>
               && Held(s.readers[i]) && Kept(s'.readers[i]).None?
               && (s'.readers[i].phase.Releasing? || s'.readers[i].phase.Stopped?))
  }

  /** The cases in which nothing needs the cursor any more, seen from the anchor. */
  ghost predicate Needless(s: Shard, me: Instance, anchor: nat) {
    && s.opening.Some? && NothingBetween(s, anchor, s.opening.value)
    && OpensAtTip(me) && (me.parented ==> anchor == 0)
    && (Continuing(s) || Quiescent(s))
  }

  lemma LeftIsAnchored(s: Shard, s': Shard, me: Instance, anchor: nat)
    requires SoloInv(s, me) && LeftWithout(s, s', me) && Needless(s, me, anchor)
    ensures Anchored(s'.(opening := Some(anchor)), me)
  {
    var t := s'.(opening := Some(anchor));
    ContinuingStays(s, t);
    forall i | 0 <= i < |t.readers|
      ensures TrackOk(t, t.readers[i].track)
    {
      assert TrackOk(s, s.readers[i].track);
      TrackFromAnchor(s, s.readers[i].track, anchor);
      TrackIsTheSame(s.(opening := Some(anchor)), t, t.readers[i].track);
    }
    SoundFromAnchor(s, t, anchor);
    assert FreshOk(t, me);
  }

  lemma TrackIsTheSame(s: Shard, s': Shard, t: Track<SequenceNumber>)
    requires TrackOk(s, t) && s' == s.(readers := s'.readers, rewinds := s'.rewinds)
    ensures TrackOk(s', t)
  {
    forall i | 0 <= i < |t.deliveries|
      ensures Accounted(s', t, i + 1, s'.opening.value, t.deliveries[i] + 1)
    {
      assert Accounted(s, t, i + 1, s.opening.value, t.deliveries[i] + 1);
    }
  }

  lemma SoundFromAnchor(s: Shard, s': Shard, anchor: nat)
    requires s.opening.Some? && NothingBetween(s, anchor, s.opening.value)
    requires s' == s.(readers := s'.readers, rewinds := s'.rewinds, opening := Some(anchor))
    ensures forall k :: Sound(s, k) ==> Sound(s', k)
  {
  }

  /** A shard with something handed out that may lose its cursor has an anchor. */
  lemma HarmlessIsNeedless(s: Shard, me: Instance) returns (anchor: nat)
    requires SoloInv(s, me) && Harmless(s, me) && OpensAtTip(me)
    requires s.row.checkpoint.None? && s.handed != {} && (Continuing(s) ==> me.parented)
    ensures Needless(s, me, anchor)
  {
    anchor := if me.parented then 0 else s.opening.value;
    if me.parented {
      forall q: nat | q < s.opening.value && q < |s.log|
        ensures s.log[q].aggregated
      {
        SkippedAtTheOpening(s, q);
      }
    }
  }

  lemma SkippedAtTheOpening(s: Shard, q: nat)
    requires HandedOk(s) && s.opening.Some? && q < s.opening.value && q < |s.log|
    ensures s.log[q].aggregated || UnreadBefore(s)
  {
    assert q !in s.settled && forall h :: h in s.handed ==> q < h;
  }

  lemma DropLeaves(s: Shard, me: Instance, id: nat, step: ReaderStep)
    requires Ours(s, me) && Enabled(s, ByReader(id, step)) && Drops(step)
    ensures LeftWithout(s, Do(s, ByReader(id, step)), me)
  {
    assert Held(s.readers[id]);
  }

  lemma CrashLeaves(s: Shard, me: Instance)
    requires Ours(s, me)
    ensures LeftWithout(s, Do(s, Crash(me.owner)), me)
  {
    forall i | 0 <= i < |s.readers|
      ensures !Held(Do(s, Crash(me.owner)).readers[i])
    {
      assert ReaderOurs(s, me, s.readers[i]);
    }
  }

  lemma HarmlessLossKeeps(s: Shard, me: Instance, a: Action)
    requires SoloInv(s, me) && Ours(s, me) && Enabled(s, a) && Forgets(me, a) && Harmless(s, me) && OpensAtTip(me)
    requires s.row.checkpoint.None? && s.handed != {}
    ensures exists from :: Anchored(Do(s, a).(opening := from), me)
  {
    assert Continuing(s) ==> me.parented by {
      if Continuing(s) {
        var i :| 0 <= i < |s.readers| && s.readers[i].lineage.Continues?;
        assert ReaderOurs(s, me, s.readers[i]);
      }
    }
    var anchor := HarmlessIsNeedless(s, me);
    if a.ByReader? {
      DropLeaves(s, me, a.id, a.step);
    } else {
      CrashLeaves(s, me);
    }
    LeftIsAnchored(s, Do(s, a), me, anchor);
  }

  lemma UnhandedForgetKeeps(s: Shard, me: Instance, a: Action)
    requires SoloInv(s, me) && Enabled(s, a) && Forgets(me, a)
    requires s.row.checkpoint.None? && s.handed == {}
    ensures exists from :: SoloInv(Do(s, a).(opening := from), me)
  {
    if a.ByReader? {
      UnhandedLossKeeps(s, me, a.id, a.step);
    } else {
      UnhandedCrashKeeps(s, me);
    }
    assert SoloInv(Do(s, a).(opening := None), me);
  }

  // ----- Every step -----

  lemma AnchoredStep(s: Shard, me: Instance, a: Action, from: Option<SequenceNumber>)
    requires Ours(s, me) && Anchored(s.(opening := from), me) && Enabled(s, a) && Solo(s, me, a)
    ensures exists to :: Anchored(Do(s, a).(opening := to), me)
  {
    var t := s.(opening := from);
    OpeningIsOnlyWatched(s, a, from);
    SameSubscription(s, t, me);
    assert Solo(t, me, a);
    StepAnchored(t, me, a);
    assert Do(s, a).(opening := Do(t, a).opening) == Do(t, a);
  }

  lemma SameSubscription(s: Shard, t: Shard, me: Instance)
    requires t == s.(opening := t.opening)
    ensures Ours(s, me) ==> Ours(t, me)
    ensures Harmless(t, me) == Harmless(s, me) && Continuing(t) == Continuing(s)
  {
    ContinuingStays(s, t);
    assert UnreadBefore(t) == UnreadBefore(s);
    if Ours(s, me) {
      SameReadersOurs(s, t, me);
    }
  }

  lemma HeldCursorStep(s: Shard, me: Instance, a: Action, from: Option<SequenceNumber>)
    requires Ours(s, me) && OpensAtTip(me) && SoloInv(s.(opening := from), me) && Enabled(s, a) && Solo(s, me, a)
    ensures (exists to :: Anchored(Do(s, a).(opening := to), me))
            || (exists to :: SoloInv(Do(s, a).(opening := to), me))
  {
    var t := s.(opening := from);
    OpeningIsOnlyWatched(s, a, from);
    SameSubscription(s, t, me);
    var t' := Do(t, a);
    assert forall to :: t'.(opening := to) == Do(s, a).(opening := to);
    if Forgets(me, a) && s.row.checkpoint.None? {
      if s.handed == {} {
        UnhandedForgetKeeps(t, me, a);
        var to :| SoloInv(t'.(opening := to), me);
        assert SoloInv(Do(s, a).(opening := to), me);
      } else {
        HarmlessLossKeeps(t, me, a);
        var to :| Anchored(t'.(opening := to), me);
        assert Anchored(Do(s, a).(opening := to), me);
      }
    } else {
      assert Solo(t, me, a);
      SoloStepKeeps(t, me, a);
      assert Do(s, a).(opening := t'.opening) == t';
    }
  }

  lemma SafeStepKeeps(s: Shard, me: Instance, a: Action)
    requires SafeInv(s, me) && Enabled(s, a) && Solo(s, me, a)
    ensures SafeInv(Do(s, a), me)
  {
    StepOurs(s, me, a);
    if from :| Anchored(s.(opening := from), me) {
      AnchoredStep(s, me, a, from);
    } else {
      var from :| SoloInv(s.(opening := from), me);
      HeldCursorStep(s, me, a, from);
    }
  }

  // ----- Runs -----

  ghost predicate Takes(s: Shard, a: Action, s': Shard) {
    Enabled(s, a) && s' == Do(s, a)
  }

  /** A run of the one instance on one shard, from an empty row. */
  ghost predicate IsSoloRun(me: Instance, actions: seq<Action>, states: seq<Shard>) {
    && |states| == |actions| + 1
    && Fresh(states[0]) && !states[0].keeps
    && forall i {:trigger actions[i]} :: 0 <= i < |actions| ==>
         Takes(states[i], actions[i], states[i + 1]) && Solo(states[i], me, actions[i])
  }

  lemma {:induction false} SoloRunKeeps(me: Instance, actions: seq<Action>, states: seq<Shard>, n: nat)
    requires IsSoloRun(me, actions, states) && n < |states|
    ensures SafeInv(states[n], me)
  {
    if n == 0 {
      FreshIsSafe(states[0], me);
    } else {
      SoloRunKeeps(me, actions, states, n - 1);
      assert Takes(states[n - 1], actions[n - 1], states[n - 1 + 1]);
      SafeStepKeeps(states[n - 1], me, actions[n - 1]);
    }
  }

  lemma FetchSkipsNothing(s: Shard, me: Instance, id: nat, at: nat)
    requires SafeInv(s, me) && Enabled(s, ByReader(id, Fetch(Iterator(at), me.installed)))
    requires Solo(s, me, ByReader(id, Fetch(Iterator(at), me.installed)))
    ensures !Skips(s, at)
  {
    if from :| Anchored(s.(opening := from), me) {
      var t := s.(opening := from);
      SameSubscription(s, t, me);
      AnchoredFetchSkipsNothing(t, me, id, at);
    } else {
      var from :| SoloInv(s.(opening := from), me);
      var t := s.(opening := from);
      assert HeldOk(t, me, t.readers[id]);
      HeldFetchSkipsNothing(t, me, t.readers[id], at, me.installed);
    }
  }

  /** The hand-off suffices: each iterator fetched in such a run, by a new reader or by one that
      lost its own, starts at or before every record handed out and never settled. */
  lemma EveryIteratorStartsEarlyEnough(me: Instance, actions: seq<Action>, states: seq<Shard>, n: nat, id: nat,
                                       installed: Option<StreamStart>, at: nat, q: SequenceNumber)
    requires IsSoloRun(me, actions, states) && n < |actions|
    requires actions[n] == ByReader(id, Fetch(Iterator(at), installed))
    requires q in states[n].handed && q !in states[n].settled
    ensures at <= q
  {
    SoloRunKeeps(me, actions, states, n);
    assert Takes(states[n], actions[n], states[n + 1]) && Solo(states[n], me, actions[n]);
    FetchSkipsNothing(states[n], me, id, at);
  }

  // ----- Reading from one place on -----

  /** The one place at which a subscription that does not open at the tip opens every reader. */
  predicate OpensAt(me: Instance, place: nat) {
    || (me.installed == Some(Horizon) && place == 0)
    || (me.installed.Some? && me.installed.value.Timestamp? && place == me.stamp(me.installed.value.millis))
  }

  lemma AnchorStays(s: Shard, me: Instance, a: Action, place: nat)
    requires Ours(s, me) && Anchored(s.(opening := Some(place)), me) && Enabled(s, a) && Solo(s, me, a)
    ensures Ours(Do(s, a), me) && Anchored(Do(s, a).(opening := Some(place)), me)
  {
    var t := s.(opening := Some(place));
    StepOurs(s, me, a);
    OpeningIsOnlyWatched(s, a, Some(place));
    SameSubscription(s, t, me);
    StepAnchored(t, me, a);
    OpeningStays(t, a);
    assert Do(s, a).(opening := Some(place)) == Do(t, a);
  }

  lemma OpeningStays(s: Shard, a: Action)
    requires Enabled(s, a) && s.opening.Some?
    ensures Do(s, a).opening == s.opening
  {
    if a.ByReader? {
      ReaderKeepsOpening(s, s.readers[a.id], a.step);
    }
  }

  lemma ReaderKeepsOpening(s: Shard, r: Reader, step: ReaderStep)
    requires Ready(s, r, step) && s.opening.Some?
    ensures Effect(s, r, step).opening == s.opening
  {
  }

  lemma {:induction false} AnchoredAtThePlace(me: Instance, actions: seq<Action>, states: seq<Shard>, n: nat, place: nat)
    requires IsSoloRun(me, actions, states) && n < |states| && OpensAt(me, place)
    ensures Ours(states[n], me) && Anchored(states[n].(opening := Some(place)), me)
  {
    if n == 0 {
      FreshIsOurs(states[0], me);
    } else {
      AnchoredAtThePlace(me, actions, states, n - 1, place);
      assert Takes(states[n - 1], actions[n - 1], states[n - 1 + 1]) && Solo(states[n - 1], me, actions[n - 1]);
      AnchorStays(states[n - 1], me, actions[n - 1], place);
    }
  }

  /** Over such a store, too, a subscription that opens at the horizon or at a timestamp leaves nothing
      out from there up to where a reader reads, whatever cursors get lost. */
  lemma NothingIsLeftOutFrom(me: Instance, actions: seq<Action>, states: seq<Shard>, n: nat, reader: nat, place: nat,
                             q: SequenceNumber)
    requires IsSoloRun(me, actions, states) && n < |states| && OpensAt(me, place)
    requires reader < |states[n].readers| && Active(states[n].readers[reader])
    requires place <= q < states[n].readers[reader].position
    ensures q < |states[n].log| && (states[n].log[q].aggregated || q in states[n].handed)
  {
    AnchoredAtThePlace(me, actions, states, n, place);
    var t := states[n].(opening := Some(place));
    assert ReaderAnchored(t, me, t.readers[reader]) && TrackOk(t, t.readers[reader].track);
  }
}
