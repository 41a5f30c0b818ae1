/**
 The main belt: a ring buffer whose consumers form a chain. A single right to read goes
 from the first consumer to the last; the one that holds it looks at the head of the belt
 and then either passes the right on or extracts the bag.

 `Line` is the value of the shared memory, the functions say what each locked section
 does, and `CintaPrincipal` carries the code of those sections.
 */
module MainBelt {
  import opened Bags
  import opened RingBuffers
  import opened Wakeups

  datatype Line = Line(ring: Ring, prodAsleep: seq<bool>, prodWaiting: nat, consumerWaiting: bool)

  datatype LineEffect = LineEffect(line: Line, signals: seq<Signal>)

  ghost predicate Consistent(b: Line) {
    b.ring.Valid() && b.prodWaiting == CountSet(b.prodAsleep)
  }

  predicate HasRoom(b: Line) { b.ring.count < b.ring.Capacity() }

  // A bag on an empty belt wakes the first consumer of the chain if the right is asleep.
  function Place(b: Line, e: Bag): LineEffect
    requires b.ring.free < |b.ring.slots|
  {
    if !HasRoom(b) then LineEffect(b, [])
    else
      var b1 := b.(ring := b.ring.Push(e));
      if b1.ring.count == 1 && b1.consumerWaiting
      then LineEffect(b1.(consumerWaiting := false), [ToConsumer(0)]) else LineEffect(b1, [])
  }

  function Settle(r: LineEffect, p: nat): LineEffect
    requires p < |r.line.prodAsleep|
  {
    var b := r.line;
    if b.ring.count == b.ring.Capacity()
    then LineEffect(b.(prodWaiting := b.prodWaiting + 1, prodAsleep := b.prodAsleep[p := true]), r.signals)
    else LineEffect(b, r.signals + [ToProducer(p)])
  }

  // The section of `colocar_elemento` for producer `p`.
  function PutLocked(b: Line, e: Bag, p: nat): LineEffect
    requires b.ring.free < |b.ring.slots| && p < |b.prodAsleep|
  {
    Settle(Place(b, e), p)
  }

  // The section of `leer_elemento`: a reader that finds nothing leaves the right asleep.
  function ReadLocked(b: Line): Line {
    if b.ring.count == 0 then b.(consumerWaiting := true) else b
  }

  function WakeProducers(b: Line): LineEffect {
    if b.prodWaiting > 0
    then LineEffect(b.(prodAsleep := Cleared(b.prodAsleep), prodWaiting := 0), ToProducers(SetIds(b.prodAsleep)))
    else LineEffect(b, [])
  }

  // The section of `extraer_elemento`.
  function ExtractLocked(b: Line): LineEffect
    requires b.ring.busy < |b.ring.slots| && b.ring.count >= 1
  {
    var b1 := b.(ring := b.ring.Pop());
    var r := if b1.ring.count == b1.ring.Capacity() - 1 then WakeProducers(b1) else LineEffect(b1, []);
    if r.line.ring.count == 0
    then LineEffect(r.line.(consumerWaiting := true), r.signals)
    else LineEffect(r.line, r.signals + [ToConsumer(0)])
  }

  // Whom consumer `i` of `n` passes the right to when it lets a bag go by.
  function Successor(i: nat, n: nat): (r: nat)
    requires i < n
    ensures r < n
  {
    if i + 1 < n then i + 1 else 0
  }

  // Who has the right when it has been passed on d times.
  function Passed(i: nat, d: nat, n: nat): (r: nat)
    requires i < n
    ensures r < n
    decreases d
  {
    if d == 0 then i else Passed(Successor(i, n), d - 1, n)
  }

  lemma {:induction false} PassedAround(i: nat, d: nat, n: nat)
    requires i < n && d <= n
    ensures Passed(i, d, n) == Around(i + d, n)
    decreases d
  {
    if d > 0 {
      PassedAround(Successor(i, n), d - 1, n);
    }
  }

  /** A bag that everybody lets go by is offered to every reader once before it comes back: reader
      j gets the right after fewer than n advances, for exactly one number of them. */
  lemma EveryReaderInTurn(i: nat, j: nat, n: nat)
    requires i < n && j < n
    ensures Passed(i, n, n) == i
    ensures exists d: nat :: d < n && Passed(i, d, n) == j && forall e: nat :: e < n && Passed(i, e, n) == j ==> e == d
  {
    var d := if j >= i then j - i else j + n - i;
    PassedAround(i, n, n);
    PassedAround(i, d, n);
    forall e: nat | e < n && Passed(i, e, n) == j ensures e == d {
      PassedAround(i, e, n);
    }
  }

  class CintaPrincipal {
    const ring: RingMemory
    const prodAsleep: array<bool>
    const consumers: nat
    var prodWaiting: nat
    var consumerWaiting: bool

    ghost predicate Valid()
      reads this, ring, ring.slots, prodAsleep
    {
      Consistent(View()) && consumers >= 1
    }

    function View(): Line
      reads this, ring, ring.slots, prodAsleep
    {
      Line(ring.View(), prodAsleep[..], prodWaiting, consumerWaiting)
    }

    constructor (capacity: nat, producers: nat, consumers: nat)
      requires capacity >= 1 && consumers >= 1
      ensures Valid() && View().ring.Contents() == [] && View().ring.Capacity() == capacity
      ensures View().prodAsleep == seq(producers, _ => false) && !View().consumerWaiting
      ensures this.consumers == consumers
    {
      ring := new RingMemory(capacity);
      prodAsleep := new bool[producers](_ => false);
      prodWaiting, consumerWaiting := 0, false;
      this.consumers := consumers;
      new;
      CountSetZero(prodAsleep[..]);
    }

    method Put(e: Bag, p: nat) returns (placed: bool, signals: seq<Signal>)
      requires Valid() && p < prodAsleep.Length
      modifies this, ring, ring.slots, prodAsleep
      ensures placed == HasRoom(old(View()))
      ensures LineEffect(View(), signals) == PutLocked(old(View()), e, p)
      ensures !old(prodAsleep[p]) ==> Valid()
      ensures View().ring.Valid()
      ensures View().ring.Contents() == old(View().ring.Contents()) + if placed then [e] else []
    {
      if !prodAsleep[p] {
        CountSetUpdate(prodAsleep[..], p);
      }
      placed, signals := false, [];
      if ring.count < ring.slots.Length {
        ring.Store(e);
        placed := true;
        if ring.count == 1 {
          if consumerWaiting {
            consumerWaiting := false;
            signals := [ToConsumer(0)];
          }
        }
      }
      if ring.count == ring.slots.Length {
        prodWaiting := prodWaiting + 1;
        prodAsleep[p] := true;
      } else {
        signals := signals + [ToProducer(p)];
      }
    }

    // `e` is meaningful when `read` holds.
    method Read() returns (read: bool, e: Bag)
      requires Valid()
      modifies this`consumerWaiting
      ensures View() == ReadLocked(old(View())) && Valid()
      ensures read <==> View().ring.Contents() != []
      ensures read ==> e == View().ring.Contents()[0]
    {
      read, e := false, NO_BAG;
      if ring.count > 0 {
        read := true;
        e := ring.Head();
      }
      if ring.count == 0 {
        consumerWaiting := true;
      }
    }

    // The source does not look whether there is a bag: only the holder of the right may call.
    method Extract() returns (signals: seq<Signal>)
      requires Valid() && ring.count >= 1
      modifies this, ring, prodAsleep
      ensures LineEffect(View(), signals) == ExtractLocked(old(View()))
      ensures Valid() && View().ring.Contents() == old(View().ring.Contents())[1..]
    {
      signals := [];
      ring.Drop();
      if ring.count == ring.slots.Length - 1 {
        if prodWaiting > 0 {
          CountSetZero(Cleared(prodAsleep[..]));
          var ids := ClearFlags(prodAsleep);
          signals := ToProducers(ids);
          prodWaiting := 0;
        }
      }
      if ring.count == 0 {
        consumerWaiting := true;
      } else {
        signals := signals + [ToConsumer(0)];
      }
    }

    // `id` counts from 1, so the semaphore numbered `id` is that of the next consumer.
    method Advance(id: nat) returns (signal: Signal)
      requires 1 <= id <= consumers
      ensures signal == ToConsumer(Successor(id - 1, consumers)) == ToConsumer(id % consumers)
    {
      if id < consumers {
        signal := ToConsumer(id);
      } else {
        signal := ToConsumer(0);
      }
    }
  }
}
