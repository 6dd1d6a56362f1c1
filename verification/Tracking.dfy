/** The per-shard watermark: a checkpoint implies everything before it was handled, so an
    acknowledgement releases a delivery only together with every earlier one.

    `Track` is the reference the watermark refines: the deliveries in arrival order and the set of
    indices acknowledged so far. `Watermark` is the imperative tracker, which keeps only the
    deliveries still outstanding. */
module Tracking {
  import opened Wrappers

  datatype Track<T> = Track(deliveries: seq<T>, done: set<nat>)

  /** The longest settled prefix, searched from `from` on. */
  function PrefixFrom<T>(t: Track<T>, from: nat): (p: nat)
    requires from <= |t.deliveries|
    ensures from <= p <= |t.deliveries|
    ensures forall i :: from <= i < p ==> i in t.done
    ensures p < |t.deliveries| ==> p !in t.done
    decreases |t.deliveries| - from
  {
    if from < |t.deliveries| && from in t.done then PrefixFrom(t, from + 1) else from
  }

  /** How many deliveries, counted from the first, are settled without a gap. */
  function Prefix<T>(t: Track<T>): (p: nat)
    ensures p <= |t.deliveries|
    ensures forall i :: 0 <= i < p ==> i in t.done
    ensures p < |t.deliveries| ==> p !in t.done
  {
    PrefixFrom(t, 0)
  }

  /** The three facts `Prefix` promises leave no choice. */
  lemma PrefixIsUnique<T>(t: Track<T>, p: nat)
    requires p <= |t.deliveries|
    requires forall i :: 0 <= i < p ==> i in t.done
    requires p < |t.deliveries| ==> p !in t.done
    ensures p == Prefix(t)
  {
  }

  function Extend<T>(t: Track<T>, item: T): Track<T> {
    t.(deliveries := t.deliveries + [item])
  }

  /** Acknowledging an index that was never handed out marks nothing. */
  function Mark<T>(t: Track<T>, index: nat): Track<T> {
    if index < |t.deliveries| then t.(done := t.done + {index}) else t
  }

  /** What a settlement answers: the last delivery of the settled prefix, when the prefix grew. */
  function Advanced<T>(before: Track<T>, after: Track<T>): Option<T> {
    if Prefix(before) < Prefix(after) then Some(after.deliveries[Prefix(after) - 1]) else None
  }

  ghost predicate WellFormed<T>(t: Track<T>) {
    forall i :: i in t.done ==> i < |t.deliveries|
  }

  lemma ExtendKeepsPrefix<T>(t: Track<T>, item: T)
    requires WellFormed(t)
    ensures Prefix(Extend(t, item)) == Prefix(t)
    ensures WellFormed(Extend(t, item))
  {
  }

  lemma MarkGrowsPrefix<T>(t: Track<T>, index: nat)
    ensures Prefix(t) <= Prefix(Mark(t, index))
    ensures WellFormed(t) ==> WellFormed(Mark(t, index))
  {
  }

  /** Settling moves the prefix exactly when it settles the delivery the prefix waits on. */
  lemma MarkMovesPrefix<T>(t: Track<T>, index: nat)
    requires WellFormed(t)
    ensures Prefix(t) < Prefix(Mark(t, index)) <==> index == Prefix(t) < |t.deliveries|
  {
    MarkGrowsPrefix(t, index);
    if index == Prefix(t) < |t.deliveries| {
    } else {
      PrefixIsUnique(Mark(t, index), Prefix(t));
    }
  }

  /** The calls a reader and the settlements make on one tracker, in the order its lock saw them. */
  datatype Call<T> = DeliverCall(item: T) | SettleCall(index: nat)

  function Step<T>(t: Track<T>, call: Call<T>): Track<T> {
    match call
    case DeliverCall(item) => Extend(t, item)
    case SettleCall(index) => Mark(t, index)
  }

  /** What a call answers: only a settlement that moves the prefix answers a delivery. */
  function Answer<T>(t: Track<T>, call: Call<T>): Option<T> {
    match call
    case DeliverCall(_) => None
    case SettleCall(index) => Advanced(t, Mark(t, index))
  }

  function After<T>(calls: seq<Call<T>>): Track<T> {
    if calls == [] then Track([], {}) else Step(After(calls[..|calls| - 1]), calls[|calls| - 1])
  }

  lemma StepGrows<T>(t: Track<T>, call: Call<T>)
    requires WellFormed(t)
    ensures WellFormed(Step(t, call))
    ensures Prefix(t) <= Prefix(Step(t, call)) && t.deliveries <= Step(t, call).deliveries
    ensures Answer(t, call).Some? <==> Prefix(t) < Prefix(Step(t, call))
  {
  }

  lemma {:induction false} AfterGrows<T>(calls: seq<Call<T>>, m: nat)
    requires m <= |calls|
    ensures WellFormed(After(calls))
    ensures Prefix(After(calls[..m])) <= Prefix(After(calls))
    ensures After(calls[..m]).deliveries <= After(calls).deliveries
  {
    if m == |calls| {
      assert calls[..m] == calls;
    }
    if calls != [] {
      var init := calls[..|calls| - 1];
      AfterGrows(init, if m < |calls| then m else 0);
      StepGrows(After(init), calls[|calls| - 1]);
      if m < |calls| {
        assert init[..m] == calls[..m];
      }
    }
  }

  lemma AfterNext<T>(calls: seq<Call<T>>, k: nat)
    requires k < |calls|
    ensures After(calls[..k + 1]) == Step(After(calls[..k]), calls[k])
    ensures Prefix(After(calls[..k])) <= Prefix(After(calls[..k + 1]))
    ensures Answer(After(calls[..k]), calls[k]).Some?
            <==> Prefix(After(calls[..k])) < Prefix(After(calls[..k + 1]))
  {
    assert calls[..k + 1][..k] == calls[..k];
    AfterGrows(calls[..k], 0);
    StepGrows(After(calls[..k]), calls[k]);
  }

  /** Over any history of calls, each answer names a later delivery than every answer before it,
      and every delivery up to the one it names has been settled. */
  lemma AnswersIncrease<T>(calls: seq<Call<T>>, m: nat, n: nat)
    requires m < n < |calls|
    requires Answer(After(calls[..m]), calls[m]).Some?
    requires Answer(After(calls[..n]), calls[n]).Some?
    ensures 0 < Prefix(After(calls[..m + 1])) < Prefix(After(calls[..n + 1]))
    ensures Answer(After(calls[..n]), calls[n]).value
            == After(calls[..n + 1]).deliveries[Prefix(After(calls[..n + 1])) - 1]
  {
    AfterNext(calls, m);
    AfterNext(calls, n);
    assert calls[..n][..m + 1] == calls[..m + 1];
    AfterGrows(calls[..n], m + 1);
  }

  /** `pending` holds the deliveries from index `front` on, each with whether it settled. */
  ghost predicate Outstanding<T(!new)>(pending: map<nat, (T, bool)>, t: Track<T>, front: nat) {
    && (forall i :: i in pending <==> front <= i < |t.deliveries|)
    && (forall i :: i in pending ==> pending[i] == (t.deliveries[i], i in t.done))
  }

  lemma FrontIsFirst<T(!new)>(pending: map<nat, (T, bool)>, t: Track<T>, front: nat)
    requires Outstanding(pending, t, front) && pending.Keys != {}
    ensures front in pending && forall i :: i in pending ==> front <= i
  {
  }

  lemma PopFront<T(!new)>(pending: map<nat, (T, bool)>, t: Track<T>, front: nat)
    requires Outstanding(pending, t, front) && front in pending && front in t.done
    requires front <= Prefix(t)
    ensures Outstanding(pending - {front}, t, front + 1)
    ensures front + 1 <= Prefix(t)
  {
  }

  lemma MarkPending<T(!new)>(pending: map<nat, (T, bool)>, t: Track<T>, index: nat)
    requires Outstanding(pending, t, Prefix(t))
    ensures Outstanding(if index in pending then pending[index := (pending[index].0, true)] else pending,
                        Mark(t, index), Prefix(t))
  {
  }

  /** The oldest outstanding entry, as an ordered map's first key. */
  method FirstEntry<T(!new)>(pending: map<nat, (T, bool)>, ghost t: Track<T>, ghost front: nat)
    returns (first: nat, entry: (T, bool))
    requires Outstanding(pending, t, front) && pending.Keys != {}
    ensures first == front && front in pending && entry == pending[front]
    ensures entry == (t.deliveries[front], front in t.done)
  {
    FrontIsFirst(pending, t, front);
    first :| first in pending && forall i :: i in pending ==> first <= i;
    entry := pending[first];
  }

  /** Pops the settled front of the outstanding deliveries and answers the last one popped. */
  method PopSettled<T(!new)>(outstanding: map<nat, (T, bool)>, ghost t: Track<T>, ghost front: nat)
    returns (pending: map<nat, (T, bool)>, advanced: Option<T>)
    requires Outstanding(outstanding, t, front) && front <= Prefix(t)
    ensures Outstanding(pending, t, Prefix(t))
    ensures advanced == if front < Prefix(t) then Some(t.deliveries[Prefix(t) - 1]) else None
  {
    ghost var popped := front;
    pending := outstanding;
    advanced := None;
    while pending.Keys != {}
      invariant front <= popped <= Prefix(t)
      invariant Outstanding(pending, t, popped)
      invariant advanced == if front < popped then Some(t.deliveries[popped - 1]) else None
      decreases |t.deliveries| - popped
    {
      var index, entry := FirstEntry(pending, t, popped);
      if !entry.1 {
        PrefixIsUnique(t, popped);
        return;
      }
      PopFront(pending, t, popped);
      pending := pending - {index};
      advanced := Some(entry.0);
      popped := popped + 1;
    }
    assert popped !in pending.Keys;
  }

  /** The tracker itself. `pending` maps the index of an outstanding delivery to the delivery and
      whether it settled; `track` is the reference state the fields stand for. */
  class Watermark<T(==, !new)> {
    var pending: map<nat, (T, bool)>
    var nextIndex: nat
    ghost var track: Track<T>

    ghost predicate Valid()
      reads this
    {
      && WellFormed(track)
      && nextIndex == |track.deliveries|
      && Outstanding(pending, track, Prefix(track))
    }

    constructor ()
      ensures Valid() && track == Track([], {})
    {
      pending := map[];
      nextIndex := 0;
      track := Track([], {});
    }

    /** Registers a delivery and answers its tracking index. */
    method Deliver(item: T) returns (index: nat)
      requires Valid()
      modifies this
      ensures Valid()
      ensures index == |old(track).deliveries|
      ensures track == Extend(old(track), item)
    {
      index := nextIndex;
      nextIndex := nextIndex + 1;
      pending := pending[index := (item, false)];
      ExtendKeepsPrefix(track, item);
      track := Extend(track, item);
    }

    /** Marks a delivery done and pops the settled front; answers the last delivery popped. */
    method Settle(index: nat) returns (advanced: Option<T>)
      requires Valid()
      modifies this
      ensures Valid()
      ensures track == Mark(old(track), index)
      ensures Prefix(old(track)) <= Prefix(track)
      ensures advanced == Advanced(old(track), track)
    {
      MarkGrowsPrefix(track, index);
      MarkPending(pending, track, index);
      ghost var front := Prefix(track);
      if index in pending {
        pending := pending[index := (pending[index].0, true)];
      }
      track := Mark(track, index);
      pending, advanced := PopSettled(pending, track, front);
    }

    /** Whether every registered delivery has settled. */
    method Drained() returns (drained: bool)
      requires Valid()
      ensures drained <==> forall i :: 0 <= i < |track.deliveries| ==> i in track.done
    {
      drained := pending.Keys == {};
      if !drained {
        var some :| some in pending.Keys;
        assert Prefix(track) < |track.deliveries|;
      } else {
        assert Prefix(track) !in pending;
      }
    }
  }
}
