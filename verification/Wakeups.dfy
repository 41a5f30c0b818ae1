/**
 Semaphores to raise and rows of "asleep" flags: what the wake-up loops of the belts
 have in common.
 */
module Wakeups {

  datatype Signal = ToProducer(id: nat) | ToConsumer(id: nat)

  function One(b: bool): nat { if b then 1 else 0 }

  function CountSet(flags: seq<bool>): nat {
    if flags == [] then 0 else CountSet(flags[..|flags| - 1]) + if flags[|flags| - 1] then 1 else 0
  }

  // The identifiers whose flag is set, in the order the wake-up loop meets them.
  function SetIds(flags: seq<bool>): seq<nat> {
    if flags == [] then []
    else SetIds(flags[..|flags| - 1]) + if flags[|flags| - 1] then [|flags| - 1] else []
  }

  function Cleared(flags: seq<bool>): (r: seq<bool>)
    ensures |r| == |flags| && forall i :: 0 <= i < |r| ==> !r[i]
  {
    seq(|flags|, _ => false)
  }

  function ToProducers(ids: seq<nat>): (r: seq<Signal>)
    ensures |r| == |ids|
  {
    seq(|ids|, i requires 0 <= i < |ids| => ToProducer(ids[i]))
  }

  function ToConsumers(ids: seq<nat>): (r: seq<Signal>)
    ensures |r| == |ids|
  {
    seq(|ids|, i requires 0 <= i < |ids| => ToConsumer(ids[i]))
  }

  lemma {:induction false} CountSetUpdate(flags: seq<bool>, i: nat)
    requires i < |flags| && !flags[i]
    ensures CountSet(flags[i := true]) == CountSet(flags) + 1
  {
    var n := |flags| - 1;
    if i == n {
      assert flags[i := true][..n] == flags[..n];
    } else {
      assert flags[i := true][..n] == flags[..n][i := true];
      CountSetUpdate(flags[..n], i);
    }
  }

  lemma {:induction false} CountSetZero(flags: seq<bool>)
    ensures CountSet(flags) == 0 <==> (forall i :: 0 <= i < |flags| ==> !flags[i])
  {
    if flags != [] {
      var n := |flags| - 1;
      CountSetZero(flags[..n]);
      assert forall i :: 0 <= i < n ==> flags[..n][i] == flags[i];
    }
  }

  // How often a semaphore occurs among those to be raised.
  ghost function Times(xs: seq<Signal>, x: Signal): nat {
    if xs == [] then 0 else One(xs[0] == x) + Times(xs[1..], x)
  }

  lemma {:induction false} TimesAppend(xs: seq<Signal>, ys: seq<Signal>, x: Signal)
    ensures Times(xs + ys, x) == Times(xs, x) + Times(ys, x)
  {
    if xs == [] {
      assert xs + ys == ys;
    } else {
      assert (xs + ys)[1..] == xs[1..] + ys;
      TimesAppend(xs[1..], ys, x);
    }
  }

  // How often an identifier occurs.
  ghost function Occurs(ids: seq<nat>, i: nat): nat {
    if ids == [] then 0 else One(ids[0] == i) + Occurs(ids[1..], i)
  }

  lemma {:induction false} OccursAppend(ids: seq<nat>, more: seq<nat>, i: nat)
    ensures Occurs(ids + more, i) == Occurs(ids, i) + Occurs(more, i)
  {
    if ids == [] {
      assert ids + more == more;
    } else {
      assert (ids + more)[1..] == ids[1..] + more;
      OccursAppend(ids[1..], more, i);
    }
  }

  lemma {:induction false} SetOnce(flags: seq<bool>, i: nat)
    ensures Occurs(SetIds(flags), i) == One(i < |flags| && flags[i])
  {
    if flags != [] {
      var n := |flags| - 1;
      SetOnce(flags[..n], i);
      OccursAppend(SetIds(flags[..n]), if flags[n] then [n] else [], i);
    }
  }

  lemma {:induction false} TimesToProducers(ids: seq<nat>, i: nat)
    ensures Times(ToProducers(ids), ToProducer(i)) == Occurs(ids, i)
    ensures Times(ToProducers(ids), ToConsumer(i)) == 0
  {
    if ids != [] {
      assert ToProducers(ids)[1..] == ToProducers(ids[1..]);
      TimesToProducers(ids[1..], i);
    }
  }

  lemma {:induction false} TimesToConsumers(ids: seq<nat>, i: nat)
    ensures Times(ToConsumers(ids), ToConsumer(i)) == Occurs(ids, i)
    ensures Times(ToConsumers(ids), ToProducer(i)) == 0
  {
    if ids != [] {
      assert ToConsumers(ids)[1..] == ToConsumers(ids[1..]);
      TimesToConsumers(ids[1..], i);
    }
  }

  // A wake-up loop raises the semaphore of each sleeper once and no other.
  lemma RaisedOnce(flags: seq<bool>, i: nat)
    ensures Times(ToProducers(SetIds(flags)), ToProducer(i)) == One(i < |flags| && flags[i])
    ensures Times(ToConsumers(SetIds(flags)), ToConsumer(i)) == One(i < |flags| && flags[i])
    ensures Times(ToProducers(SetIds(flags)), ToConsumer(i)) == 0
    ensures Times(ToConsumers(SetIds(flags)), ToProducer(i)) == 0
  {
    SetOnce(flags, i);
    TimesToProducers(SetIds(flags), i);
    TimesToConsumers(SetIds(flags), i);
  }

  lemma {:induction false} AbsentIsZero(xs: seq<Signal>, x: Signal)
    ensures x !in xs ==> Times(xs, x) == 0
  {
    if xs != [] {
      AbsentIsZero(xs[1..], x);
    }
  }

  /** Clears every set flag and collects its owner, as the loops of `despertar_consumidores`
      and `despertar_productores` do. */
  method ClearFlags(flags: array<bool>) returns (ids: seq<nat>)
    modifies flags
    ensures ids == SetIds(old(flags[..]))
    ensures flags[..] == Cleared(old(flags[..]))
  {
    ids := [];
    var i := 0;
    while i < flags.Length
      invariant 0 <= i <= flags.Length
      invariant ids == SetIds(old(flags[..])[..i])
      invariant forall k :: 0 <= k < i ==> !flags[k]
      invariant forall k :: i <= k < flags.Length ==> flags[k] == old(flags[k])
    {
      assert old(flags[..])[..i + 1][..i] == old(flags[..])[..i];
      if flags[i] {
        ids := ids + [i];
        flags[i] := false;
      }
      i := i + 1;
    }
    assert old(flags[..])[..i] == old(flags[..]);
  }
}
