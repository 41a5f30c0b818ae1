/**
 The circular storage shared by the four belts: a vector, the next free
 position, the next occupied position and the number of elements.
 `Ring` is its value; `RingMemory` is the shared memory that the belts update.
 */
module RingBuffers {
  import opened Bags

  // A position counted from the start of the vector, at most once around.
  function Around(x: nat, n: nat): (r: nat)
    requires x < 2 * n
    ensures r < n
  {
    if x < n then x else x - n
  }

  // The code reduces positions with `%`.
  lemma AroundIsModulo(x: nat, n: nat)
    requires x < 2 * n
    ensures x % n == Around(x, n)
  {
    if x >= n {
      assert x == n + (x - n);
    }
  }

  datatype Ring = Ring(slots: seq<Bag>, free: nat, busy: nat, count: nat) {

    ghost predicate Valid() {
      && free < |slots| && busy < |slots| && count <= |slots|
      && free == Around(busy + count, |slots|)
    }

    function Capacity(): nat { |slots| }

    function Push(e: Bag): Ring
      requires free < |slots|
    {
      Ring(slots[free := e], Around(free + 1, |slots|), busy, count + 1)
    }

    function Pop(): Ring
      requires busy < |slots| && count >= 1
    {
      Ring(slots, free, Around(busy + 1, |slots|), count - 1)
    }

    // The bag `k` places behind the head.
    function At(k: nat): Bag
      requires busy < |slots| && k < |slots|
    {
      slots[Around(busy + k, |slots|)]
    }

    // The queue that the vector stands for, oldest bag first.
    ghost function Contents(): (q: seq<Bag>)
      requires Valid()
      ensures |q| == count
    {
      seq(count, k requires 0 <= k < count => At(k))
    }
  }

  lemma PushAppends(r: Ring, e: Bag)
    requires r.Valid() && r.count < r.Capacity()
    ensures r.Push(e).Valid() && r.Push(e).Capacity() == r.Capacity()
    ensures r.Push(e).Contents() == r.Contents() + [e]
  {
    assert r.Push(e).At(r.count) == e;
    forall k: nat | k < r.count ensures r.Push(e).At(k) == r.At(k) {
    }
  }

  lemma PopRemovesHead(r: Ring)
    requires r.Valid() && r.count >= 1
    ensures r.Pop().Valid() && r.Pop().Capacity() == r.Capacity()
    ensures r.Contents() == [r.slots[r.busy]] + r.Pop().Contents()
  {
    forall k: nat | k < r.count - 1 ensures r.Pop().At(k) == r.At(k + 1) {
    }
  }

  class RingMemory {
    const slots: array<Bag>
    var free: nat
    var busy: nat
    var count: nat

    constructor (capacity: nat)
      requires capacity >= 1
      ensures fresh(slots) && View().Valid()
      ensures View().Capacity() == capacity && View().Contents() == []
    {
      slots := new Bag[capacity](_ => NO_BAG);
      free, busy, count := 0, 0, 0;
    }

    function View(): Ring
      reads this, slots
    {
      Ring(slots[..], free, busy, count)
    }

    method Store(e: Bag)
      requires View().Valid() && count < slots.Length
      modifies this, slots
      ensures View() == old(View()).Push(e) && View().Valid()
      ensures View().Contents() == old(View().Contents()) + [e]
    {
      PushAppends(View(), e);
      AroundIsModulo(free + 1, slots.Length);
      slots[free] := e;
      free := (free + 1) % slots.Length;
      count := count + 1;
    }

    method Head() returns (e: Bag)
      requires View().Valid() && count >= 1
      ensures e == View().Contents()[0]
    {
      PopRemovesHead(View());
      e := slots[busy];
    }

    method Drop()
      requires View().Valid() && count >= 1
      modifies this
      ensures View() == old(View()).Pop() && View().Valid()
      ensures View().Contents() == old(View().Contents())[1..]
    {
      PopRemovesHead(View());
      AroundIsModulo(busy + 1, slots.Length);
      busy := (busy + 1) % slots.Length;
      count := count - 1;
    }
  }
}
