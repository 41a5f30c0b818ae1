/**
 The check-in belt and the loading belt: a ring buffer with one semaphore per
 process and explicit flags that say which processes sleep.

 `Belt` is the value of the shared memory and the functions `PutLocked`,
 `TakeLocked`, `CloseLocked` and `ResetLocked` say what each section between
 `lock()` and `unlock()` does to it and which semaphores it raises, in order.
 The classes `Cinta` and `CintaCarga` hold the words of the memory and carry the
 code of those sections, proved against the functions.
 */
module CheckinBelt {
  import opened Bags
  import opened RingBuffers
  import opened Wakeups

  datatype Belt = Belt(
    ring: Ring,
    prodAsleep: seq<bool>, prodWaiting: nat,
    consAsleep: seq<bool>, consWaiting: nat,
    closed: bool, total: int)

  // The counters next to the flags agree with them.
  ghost predicate Consistent(b: Belt) {
    && b.ring.Valid()
    && b.prodWaiting == CountSet(b.prodAsleep)
    && b.consWaiting == CountSet(b.consAsleep)
  }

  datatype Effect = Effect(belt: Belt, signals: seq<Signal>)

  function WakeConsumers(b: Belt): Effect {
    if b.consWaiting > 0
    then Effect(b.(consAsleep := Cleared(b.consAsleep), consWaiting := 0), ToConsumers(SetIds(b.consAsleep)))
    else Effect(b, [])
  }

  function WakeProducers(b: Belt): Effect {
    if b.prodWaiting > 0
    then Effect(b.(prodAsleep := Cleared(b.prodAsleep), prodWaiting := 0), ToProducers(SetIds(b.prodAsleep)))
    else Effect(b, [])
  }

  predicate CanPlace(b: Belt) { b.ring.count < b.ring.Capacity() }

  // First half of a put: place the bag if there is room, waking the consumers of an empty belt.
  function PlaceAndWake(b: Belt, e: Bag): Effect
    requires b.ring.free < |b.ring.slots|
  {
    if !CanPlace(b) then Effect(b, [])
    else
      var b1 := b.(ring := b.ring.Push(e));
      if b1.ring.count == 1 then WakeConsumers(b1) else Effect(b1, [])
  }

  // Second half: on a full belt the producer goes to sleep, otherwise it keeps its permission.
  function SettleProducer(r: Effect, p: nat): Effect
    requires p < |r.belt.prodAsleep|
  {
    var b := r.belt;
    if b.ring.count == b.ring.Capacity()
    then Effect(b.(prodWaiting := b.prodWaiting + 1, prodAsleep := b.prodAsleep[p := true]), r.signals)
    else Effect(b, r.signals + [ToProducer(p)])
  }

  // The section of `poner_equipaje` for producer `p`.
  function PutLocked(b: Belt, e: Bag, p: nat): Effect
    requires b.ring.free < |b.ring.slots| && p < |b.prodAsleep|
  {
    SettleProducer(PlaceAndWake(b, e), p)
  }

  // True when a take goes through the ordinary branch and not through the closing one.
  predicate Ordinary(b: Belt, noticed: bool) { noticed || !b.closed }

  function RemoveAndWake(b: Belt): Effect
    requires b.ring.busy < |b.ring.slots|
  {
    if b.ring.count == 0 then Effect(b, [])
    else
      var b1 := b.(ring := b.ring.Pop());
      if b1.ring.count == b1.ring.Capacity() - 1 then WakeProducers(b1) else Effect(b1, [])
  }

  function SettleConsumer(r: Effect, c: nat): Effect
    requires c < |r.belt.consAsleep|
  {
    var b := r.belt;
    if b.ring.count == 0
    then Effect(b.(consWaiting := b.consWaiting + 1, consAsleep := b.consAsleep[c := true]), r.signals)
    else Effect(b, r.signals + [ToConsumer(c)])
  }

  // The section of `sacar_equipaje` for consumer `c`; `noticed` is the consumer's own
  // memory of having seen the end of check-in.
  function TakeLocked(b: Belt, noticed: bool, c: nat): Effect
    requires b.ring.busy < |b.ring.slots| && c < |b.consAsleep|
  {
    if Ordinary(b, noticed) then SettleConsumer(RemoveAndWake(b), c) else Effect(b, [ToConsumer(c)])
  }

  function CloseLocked(b: Belt, total: int): Effect {
    WakeConsumers(b.(total := total, closed := true))
  }

  function ResetLocked(b: Belt): Belt { b.(total := 0, closed := false) }

  // What the consumer is told about the number of bags: -1 until it has noticed the closing.
  function TotalRead(b: Belt, noticed: bool): int { if noticed then b.total else -1 }

  // ---------------------------------------------------------------- counters

  lemma WakeKeepsCounters(b: Belt)
    requires Consistent(b)
    ensures Consistent(WakeProducers(b).belt) && Consistent(WakeConsumers(b).belt)
  {
    CountSetZero(Cleared(b.prodAsleep));
    CountSetZero(Cleared(b.consAsleep));
  }

  lemma PutKeepsCounters(b: Belt, e: Bag, p: nat)
    requires Consistent(b) && p < |b.prodAsleep| && !b.prodAsleep[p]
    ensures Consistent(PutLocked(b, e, p).belt)
  {
    if CanPlace(b) {
      PushAppends(b.ring, e);
      WakeKeepsCounters(b.(ring := b.ring.Push(e)));
    }
    CountSetUpdate(b.prodAsleep, p);
  }

  lemma TakeKeepsCounters(b: Belt, noticed: bool, c: nat)
    requires Consistent(b) && c < |b.consAsleep| && !b.consAsleep[c]
    ensures Consistent(TakeLocked(b, noticed, c).belt)
  {
    if b.ring.count > 0 {
      PopRemovesHead(b.ring);
      WakeKeepsCounters(b.(ring := b.ring.Pop()));
    }
    CountSetUpdate(b.consAsleep, c);
  }

  // ---------------------------------------------------------------- code of the locked sections

  class Cinta {
    const ring: RingMemory
    const prodAsleep: array<bool>
    const consAsleep: array<bool>
    var prodWaiting: nat
    var consWaiting: nat

    ghost predicate Valid()
      reads this, ring, ring.slots, prodAsleep, consAsleep
    {
      && prodAsleep != consAsleep
      && consAsleep.Length >= 1
      && Consistent(View())
    }

    // The closing words of the loading belt are absent here, so their view is constant.
    function View(): Belt
      reads this, ring, ring.slots, prodAsleep, consAsleep
    {
      Belt(ring.View(), prodAsleep[..], prodWaiting, consAsleep[..], consWaiting, false, 0)
    }

    constructor (capacity: nat, producers: nat, consumers: nat)
      requires capacity >= 1 && consumers >= 1
      ensures Valid() && View().ring.Contents() == []
      ensures View().prodAsleep == seq(producers, _ => false) && View().consAsleep == seq(consumers, _ => false)
    {
      ring := new RingMemory(capacity);
      prodAsleep := new bool[producers](_ => false);
      consAsleep := new bool[consumers](_ => false);
      prodWaiting, consWaiting := 0, 0;
      new;
      CountSetZero(prodAsleep[..]);
      CountSetZero(consAsleep[..]);
    }

    method WakeConsumersLocked() returns (signals: seq<Signal>)
      requires prodAsleep != consAsleep
      modifies this`consWaiting, consAsleep
      ensures Effect(View(), signals) == WakeConsumers(old(View()))
    {
      signals := [];
      if consWaiting > 0 {
        var ids := ClearFlags(consAsleep);
        signals := ToConsumers(ids);
        consWaiting := 0;
      }
    }

    method WakeProducersLocked() returns (signals: seq<Signal>)
      requires prodAsleep != consAsleep
      modifies this`prodWaiting, prodAsleep
      ensures Effect(View(), signals) == WakeProducers(old(View()))
    {
      signals := [];
      if prodWaiting > 0 {
        var ids := ClearFlags(prodAsleep);
        signals := ToProducers(ids);
        prodWaiting := 0;
      }
    }

    method Put(e: Bag, p: nat) returns (placed: bool, signals: seq<Signal>)
      requires Valid() && p < prodAsleep.Length
      modifies this, ring, ring.slots, prodAsleep, consAsleep
      ensures placed == CanPlace(old(View()))
      ensures Effect(View(), signals) == PutLocked(old(View()), e, p)
      ensures View().ring.Valid()
      ensures View().ring.Contents() == old(View().ring.Contents()) + if placed then [e] else []
      ensures !old(prodAsleep[p]) ==> Valid()
    {
      if !prodAsleep[p] {
        PutKeepsCounters(View(), e, p);
      }
      placed, signals := false, [];
      if ring.count < ring.slots.Length {
        ring.Store(e);
        placed := true;
        if ring.count == 1 {
          signals := WakeConsumersLocked();
        }
      }
      if ring.count == ring.slots.Length {
        prodWaiting := prodWaiting + 1;
        prodAsleep[p] := true;
      } else {
        signals := signals + [ToProducer(p)];
      }
    }

    // The check-in belt itself has one consumer and passes 0; `e` is meaningful when `taken` holds.
    method Take(c: nat) returns (taken: bool, e: Bag, signals: seq<Signal>)
      requires Valid() && c < consAsleep.Length
      modifies this, ring, ring.slots, prodAsleep, consAsleep
      ensures taken <==> old(View().ring.Contents()) != []
      ensures Effect(View(), signals) == TakeLocked(old(View()), false, c)
      ensures View().ring.Valid()
      ensures old(View().ring.Contents()) == (if taken then [e] else []) + View().ring.Contents()
      ensures !old(consAsleep[c]) ==> Valid()
    {
      if !consAsleep[c] {
        TakeKeepsCounters(View(), false, c);
      }
      taken, e, signals := false, NO_BAG, [];
      if ring.count > 0 {
        taken := true;
        e := ring.Head();
        ring.Drop();
        if ring.count == ring.slots.Length - 1 {
          signals := WakeProducersLocked();
        }
      }
      if ring.count == 0 {
        consWaiting := consWaiting + 1;
        consAsleep[c] := true;
      } else {
        signals := signals + [ToConsumer(c)];
      }
    }
  }

  // The closing words play no part in a put or in an ordinary take.
  lemma PutIgnoresClosing(b: Belt, closed: bool, total: int, e: Bag, p: nat)
    requires Consistent(b) && p < |b.prodAsleep|
    ensures var r := PutLocked(b, e, p);
      PutLocked(b.(closed := closed, total := total), e, p)
      == Effect(r.belt.(closed := closed, total := total), r.signals)
  {
  }

  lemma TakeIgnoresClosing(b: Belt, closed: bool, total: int, noticed: bool, c: nat)
    requires Consistent(b) && !b.closed && c < |b.consAsleep|
    requires noticed || !closed
    ensures var r := TakeLocked(b, false, c);
      TakeLocked(b.(closed := closed, total := total), noticed, c)
      == Effect(r.belt.(closed := closed, total := total), r.signals)
  {
  }

  class CintaCarga {
    const belt: Cinta
    var closed: bool
    var total: int
    var noticed: bool
    // The number the desk gave when it last closed the belt.
    ghost var announced: int

    // Who has noticed the closing still meets it, and with it the number given then.
    ghost predicate Valid()
      reads this, belt, belt.ring, belt.ring.slots, belt.prodAsleep, belt.consAsleep
    {
      belt.Valid() && (noticed ==> closed) && (closed ==> total == announced)
    }

    function View(): Belt
      reads this, belt, belt.ring, belt.ring.slots, belt.prodAsleep, belt.consAsleep
    {
      belt.View().(closed := closed, total := total)
    }

    constructor (capacity: nat, producers: nat, consumers: nat)
      requires capacity >= 1 && consumers >= 1
      ensures Valid() && View().ring.Contents() == [] && !noticed && !View().closed
    {
      belt := new Cinta(capacity, producers, consumers);
      closed, total, noticed := false, 0, false;
    }

    method Put(e: Bag, p: nat) returns (placed: bool, signals: seq<Signal>)
      requires Valid() && p < belt.prodAsleep.Length
      modifies belt, belt.ring, belt.ring.slots, belt.prodAsleep, belt.consAsleep
      ensures placed == CanPlace(old(View()))
      ensures Effect(View(), signals) == PutLocked(old(View()), e, p)
      ensures noticed == old(noticed) && announced == old(announced)
      ensures !old(belt.prodAsleep[p]) ==> Valid()
    {
      PutIgnoresClosing(belt.View(), closed, total, e, p);
      placed, signals := belt.Put(e, p);
    }

    /** Returns the dummy bag, taking nothing, the first time the consumer meets a closed belt. */
    method Take(c: nat) returns (done: bool, e: Bag, signals: seq<Signal>)
      requires Valid() && c < belt.consAsleep.Length
      modifies this, belt, belt.ring, belt.ring.slots, belt.prodAsleep, belt.consAsleep
      ensures Effect(View(), signals) == TakeLocked(old(View()), old(noticed), c)
      ensures noticed == (old(noticed) || !Ordinary(old(View()), old(noticed)))
      ensures Ordinary(old(View()), old(noticed)) ==>
        && done == (old(View().ring.Contents()) != [])
        && View().ring.Valid()
        && old(View().ring.Contents()) == (if done then [e] else []) + View().ring.Contents()
      ensures !Ordinary(old(View()), old(noticed)) ==> done && e == NO_BAG && View() == old(View())
      ensures announced == old(announced)
      ensures !old(belt.consAsleep[c]) ==> Valid()
    {
      if noticed || !closed {
        TakeIgnoresClosing(belt.View(), closed, total, noticed, c);
        done, e, signals := belt.Take(c);
      } else {
        noticed := true;
        done, e, signals := true, NO_BAG, [ToConsumer(c)];
      }
    }

    method NotifyClosed(bags: int) returns (signals: seq<Signal>)
      requires Valid()
      modifies this, belt, belt.consAsleep
      ensures Effect(View(), signals) == CloseLocked(old(View()), bags)
      ensures Valid() && noticed == old(noticed) && announced == bags
    {
      WakeKeepsCounters(belt.View());
      announced := bags;
      total := bags;
      closed := true;
      signals := belt.WakeConsumersLocked();
    }

    /** The robot is told the number the desk gave, and before it has noticed the closing nothing. */
    method TotalBags() returns (bags: int)
      requires Valid()
      ensures bags == TotalRead(View(), noticed) == if noticed then announced else -1
    {
      bags := if noticed then total else -1;
    }

    method StartNewLoad()
      modifies this
      ensures View() == ResetLocked(old(View())) && !noticed
      ensures old(Valid()) ==> Valid()
    {
      total := 0;
      closed := false;
      noticed := false;
    }
  }
}
