/**
 The check-in and loading belts as interleaved processes: any number of producers,
 one consumer, and the check-in desk that announces the end of check-in.

 A step is one semaphore operation, one entry into the locked section or one exit
 from it. While a process is inside, the semaphores it raises are raised one by one,
 interleaved with the steps of all the others.
 */
module BeltProtocol {
  import opened Bags
  import opened RingBuffers
  import opened Wakeups
  import opened CheckinBelt

  datatype Producer = Idle | AtSemaphore(bag: Bag) | Awake(bag: Bag) | Inside(bag: Bag, placed: bool)

  datatype Consumer = Resting | Waiting | Roused | Within(done: bool, bag: Bag)

  datatype Holder = Free | HeldByProducer(p: nat) | HeldByConsumer | HeldByDesk

  datatype State = State(
    belt: Belt,
    me: nat,                 // position of the only consumer
    noticed: bool,           // its own memory of the end of check-in
    holder: Holder,          // who is between lock() and unlock()
    pending: seq<Signal>,    // semaphores the holder has yet to raise
    prodSem: seq<nat>, consSem: nat,
    prods: seq<Producer>, cons: Consumer,
    puts: seq<Bag>,          // every bag placed so far, in order
    takes: seq<Bag>,         // every bag removed so far, in order
    dummies: nat)            // dummy bags returned since the last reset

  datatype Label =
    | StartPut(p: nat, e: Bag) | PutWait(p: nat) | PutEnter(p: nat) | PutLeave(p: nat)
    | StartTake | TakeWait | TakeEnter | TakeLeave
    | Emit
    | CloseEnter(total: int) | CloseLeave
    | Reset

  ghost predicate WellFormed(s: State) {
    && |s.prodSem| == |s.prods| == |s.belt.prodAsleep|
    && s.me < |s.belt.consAsleep|
    && s.belt.ring.Valid()
  }

  ghost predicate Enabled(s: State, l: Label)
    requires WellFormed(s)
  {
    match l
    case StartPut(p, e) => p < |s.prods| && s.prods[p].Idle?
    case PutWait(p) => p < |s.prods| && s.prods[p].AtSemaphore? && s.prodSem[p] > 0
    case PutEnter(p) => p < |s.prods| && s.prods[p].Awake? && s.holder.Free?
    case PutLeave(p) => p < |s.prods| && s.prods[p].Inside? && s.holder == HeldByProducer(p) && s.pending == []
    case StartTake => s.cons.Resting?
    case TakeWait => s.cons.Waiting? && s.consSem > 0
    case TakeEnter => s.cons.Roused? && s.holder.Free?
    case TakeLeave => s.cons.Within? && s.holder.HeldByConsumer? && s.pending == []
    case Emit => s.pending != []
    case CloseEnter(total) => s.holder.Free?
    case CloseLeave => s.holder.HeldByDesk? && s.pending == []
    case Reset => s.cons.Resting? && s.holder.Free?
  }

  ghost function Raise(s: State, x: Signal): State {
    match x
    case ToProducer(i) => if i < |s.prodSem| then s.(prodSem := s.prodSem[i := s.prodSem[i] + 1]) else s
    case ToConsumer(i) => if i == s.me then s.(consSem := s.consSem + 1) else s
  }

  ghost function Apply(s: State, l: Label): State
    requires WellFormed(s) && Enabled(s, l)
  {
    match l
    case StartPut(p, e) => s.(prods := s.prods[p := AtSemaphore(e)])
    case PutWait(p) => s.(prodSem := s.prodSem[p := s.prodSem[p] - 1], prods := s.prods[p := Awake(s.prods[p].bag)])
    case PutEnter(p) =>
      var e := s.prods[p].bag;
      var r := PutLocked(s.belt, e, p);
      s.(belt := r.belt, holder := HeldByProducer(p), pending := r.signals,
         prods := s.prods[p := Inside(e, CanPlace(s.belt))],
         puts := if CanPlace(s.belt) then s.puts + [e] else s.puts)
    case PutLeave(p) =>
      s.(holder := Free,
         prods := s.prods[p := if s.prods[p].placed then Idle else AtSemaphore(s.prods[p].bag)])
    case StartTake => s.(cons := Waiting)
    case TakeWait => s.(consSem := s.consSem - 1, cons := Roused)
    case TakeEnter =>
      var r := TakeLocked(s.belt, s.noticed, s.me);
      var s1 := s.(belt := r.belt, holder := HeldByConsumer, pending := r.signals);
      if !Ordinary(s.belt, s.noticed) then
        s1.(noticed := true, cons := Within(true, NO_BAG), dummies := s.dummies + 1)
      else if s.belt.ring.count > 0 then
        var e := s.belt.ring.slots[s.belt.ring.busy];
        s1.(cons := Within(true, e), takes := s.takes + [e])
      else
        s1.(cons := Within(false, NO_BAG))
    case TakeLeave => s.(holder := Free, cons := if s.cons.done then Resting else Waiting)
    case Emit => Raise(s, s.pending[0]).(pending := s.pending[1..])
    case CloseEnter(total) =>
      var r := CloseLocked(s.belt, total);
      s.(belt := r.belt, holder := HeldByDesk, pending := r.signals)
    case CloseLeave => s.(holder := Free)
    case Reset => s.(belt := ResetLocked(s.belt), noticed := false, dummies := 0)
  }

  ghost predicate Runs(s: State, run: seq<Label>)
    decreases |run|
  {
    run == [] || (WellFormed(s) && Enabled(s, run[0]) && Runs(Apply(s, run[0]), run[1..]))
  }

  ghost function After(s: State, run: seq<Label>): State
    requires Runs(s, run)
    decreases |run|
  {
    if run == [] then s else After(Apply(s, run[0]), run[1..])
  }

  // ---------------------------------------------------------------- the invariant

  // Where producer p's single permission is: its semaphore, its own hands, its
  // sleeping flag, or the list of semaphores about to be raised.
  ghost function ProducerPermits(s: State, p: nat): nat
    requires WellFormed(s) && p < |s.prods|
  {
    s.prodSem[p] + One(s.prods[p].Awake?) + One(s.belt.prodAsleep[p]) + Times(s.pending, ToProducer(p))
  }

  ghost function ConsumerPermits(s: State): nat
    requires WellFormed(s)
  {
    s.consSem + One(s.cons.Roused?) + One(s.belt.consAsleep[s.me]) + Times(s.pending, ToConsumer(s.me))
  }

  ghost predicate HolderIsInside(s: State) {
    && (forall p :: 0 <= p < |s.prods| ==> (s.prods[p].Inside? <==> s.holder == HeldByProducer(p)))
    && (s.holder.HeldByProducer? ==> s.holder.p < |s.prods|)
    && (s.cons.Within? <==> s.holder.HeldByConsumer?)
    && (s.holder.Free? ==> s.pending == [])
  }

  // A sleeping producer means a full belt; a sleeping consumer means an empty one, and
  // that the end of check-in, if announced, has been noticed.
  ghost predicate FlagsMean(b: Belt, me: nat, noticed: bool) {
    && (forall q :: 0 <= q < |b.prodAsleep| && b.prodAsleep[q] ==> b.ring.count == b.ring.Capacity())
    && (me < |b.consAsleep| && b.consAsleep[me] ==> b.ring.count == 0 && (b.closed ==> noticed))
  }

  ghost predicate Inv(s: State) {
    && WellFormed(s)
    && Consistent(s.belt)
    && HolderIsInside(s)
    && (forall p :: 0 <= p < |s.prods| ==> ProducerPermits(s, p) == 1)
    && ConsumerPermits(s) == 1
    && FlagsMean(s.belt, s.me, s.noticed)
    && s.puts == s.takes + s.belt.ring.Contents()
    && s.dummies == One(s.noticed)
    && (s.noticed ==> s.belt.closed)
  }

  ghost predicate Init(s: State) {
    && WellFormed(s)
    && s.belt.ring.count == 0
    && s.belt.prodAsleep == Cleared(s.belt.prodAsleep) && s.belt.prodWaiting == 0
    && s.belt.consAsleep == Cleared(s.belt.consAsleep) && s.belt.consWaiting == 0
    && !s.belt.closed && !s.noticed && s.dummies == 0
    && s.holder.Free? && s.pending == []
    && (forall p :: 0 <= p < |s.prods| ==> s.prods[p].Idle? && s.prodSem[p] == 1)
    && s.cons.Resting? && s.consSem == 1
    && s.puts == [] && s.takes == []
  }

  lemma InitHolds(s: State)
    requires Init(s)
    ensures Inv(s)
  {
    CountSetZero(s.belt.prodAsleep);
    CountSetZero(s.belt.consAsleep);
  }

  // ---------------------------------------------------------------- permits in the locked sections

  // What a locked section leaves of the permits of producer p and of consumer c:
  // in their flags and in the semaphores it raises.
  ghost function ProducerShare(r: Effect, p: nat): nat
    requires p < |r.belt.prodAsleep|
  {
    One(r.belt.prodAsleep[p]) + Times(r.signals, ToProducer(p))
  }

  ghost function ConsumerShare(r: Effect, c: nat): nat
    requires c < |r.belt.consAsleep|
  {
    One(r.belt.consAsleep[c]) + Times(r.signals, ToConsumer(c))
  }

  ghost predicate SameShape(b: Belt, r: Effect) {
    |r.belt.prodAsleep| == |b.prodAsleep| && |r.belt.consAsleep| == |b.consAsleep|
  }

  lemma WakeConserves(b: Belt, p: nat, c: nat)
    requires Consistent(b)
    ensures SameShape(b, WakeProducers(b)) && SameShape(b, WakeConsumers(b))
    ensures p < |b.prodAsleep| ==>
      && ProducerShare(WakeProducers(b), p) == ProducerShare(WakeConsumers(b), p) == One(b.prodAsleep[p])
      && !WakeProducers(b).belt.prodAsleep[p]
    ensures c < |b.consAsleep| ==>
      && ConsumerShare(WakeProducers(b), c) == ConsumerShare(WakeConsumers(b), c) == One(b.consAsleep[c])
      && !WakeConsumers(b).belt.consAsleep[c]
  {
    CountSetZero(b.prodAsleep);
    CountSetZero(b.consAsleep);
    RaisedOnce(b.prodAsleep, p);
    RaisedOnce(b.consAsleep, c);
    RaisedOnce(b.prodAsleep, c);
    RaisedOnce(b.consAsleep, p);
  }

  lemma PlaceConserves(b: Belt, e: Bag, q: nat, c: nat)
    requires Consistent(b)
    ensures SameShape(b, PlaceAndWake(b, e))
    ensures q < |b.prodAsleep| ==> ProducerShare(PlaceAndWake(b, e), q) == One(b.prodAsleep[q])
    ensures c < |b.consAsleep| ==> ConsumerShare(PlaceAndWake(b, e), c) == One(b.consAsleep[c])
    ensures PlaceAndWake(b, e).belt.prodAsleep == b.prodAsleep
  {
    if CanPlace(b) {
      PushAppends(b.ring, e);
      WakeConserves(b.(ring := b.ring.Push(e)), q, c);
    }
  }

  // A put spends producer p's permit once: on its flag when the belt is left full,
  // on its own semaphore otherwise. Nobody else gains or loses one.
  lemma PutConserves(b: Belt, e: Bag, p: nat, q: nat, c: nat)
    requires Consistent(b) && p < |b.prodAsleep| && !b.prodAsleep[p]
    ensures SameShape(b, PutLocked(b, e, p))
    ensures q < |b.prodAsleep| ==> ProducerShare(PutLocked(b, e, p), q) == One(b.prodAsleep[q]) + One(q == p)
    ensures c < |b.consAsleep| ==> ConsumerShare(PutLocked(b, e, p), c) == One(b.consAsleep[c])
  {
    var r := PlaceAndWake(b, e);
    PlaceConserves(b, e, q, c);
    TimesAppend(r.signals, [ToProducer(p)], ToProducer(q));
    TimesAppend(r.signals, [ToProducer(p)], ToConsumer(c));
  }

  lemma TakeConserves(b: Belt, noticed: bool, m: nat, q: nat, c: nat)
    requires Consistent(b) && m < |b.consAsleep| && !b.consAsleep[m]
    ensures SameShape(b, TakeLocked(b, noticed, m))
    ensures q < |b.prodAsleep| ==> ProducerShare(TakeLocked(b, noticed, m), q) == One(b.prodAsleep[q])
    ensures c < |b.consAsleep| ==> ConsumerShare(TakeLocked(b, noticed, m), c) == One(b.consAsleep[c]) + One(c == m)
  {
    var r := RemoveAndWake(b);
    if b.ring.count > 0 {
      PopRemovesHead(b.ring);
      WakeConserves(b.(ring := b.ring.Pop()), q, c);
    }
    TimesAppend(r.signals, [ToConsumer(m)], ToProducer(q));
    TimesAppend(r.signals, [ToConsumer(m)], ToConsumer(c));
  }

  // ---------------------------------------------------------------- one step

  lemma PutEnterPermits(s: State, p: nat, q: nat)
    requires Inv(s) && Enabled(s, PutEnter(p)) && q < |s.prods|
    ensures WellFormed(Apply(s, PutEnter(p)))
    ensures ProducerPermits(Apply(s, PutEnter(p)), q) == 1
    ensures ConsumerPermits(Apply(s, PutEnter(p))) == 1
  {
    assert ProducerPermits(s, p) == 1 && ProducerPermits(s, q) == 1;
    PutConserves(s.belt, s.prods[p].bag, p, q, s.me);
    PutKeepsCounters(s.belt, s.prods[p].bag, p);
  }

  // After a bag is placed nobody sleeps, except the producer that filled the belt.
  lemma PlacedWakes(b: Belt, e: Bag, me: nat, noticed: bool)
    requires Consistent(b) && FlagsMean(b, me, noticed) && CanPlace(b) && me < |b.consAsleep|
    ensures var r := PlaceAndWake(b, e).belt;
      && r.ring == b.ring.Push(e) && |r.prodAsleep| == |b.prodAsleep| && |r.consAsleep| == |b.consAsleep|
      && (forall q :: 0 <= q < |r.prodAsleep| ==> !r.prodAsleep[q])
      && !r.consAsleep[me]
  {
    PushAppends(b.ring, e);
    WakeConserves(b.(ring := b.ring.Push(e)), 0, me);
  }

  lemma PutFlags(b: Belt, e: Bag, p: nat, me: nat, noticed: bool)
    requires Consistent(b) && FlagsMean(b, me, noticed) && p < |b.prodAsleep| && me < |b.consAsleep|
    ensures FlagsMean(PutLocked(b, e, p).belt, me, noticed)
  {
    var r := PlaceAndWake(b, e);
    if CanPlace(b) {
      PlacedWakes(b, e, me, noticed);
      assert FlagsMean(r.belt, me, noticed);
    }
    assert SettleProducer(r, p).belt.ring == r.belt.ring;
  }

  lemma TakeFlags(b: Belt, me: nat, noticed: bool)
    requires Consistent(b) && FlagsMean(b, me, noticed) && me < |b.consAsleep|
    ensures FlagsMean(TakeLocked(b, noticed, me).belt, me, noticed)
  {
    if b.ring.count > 0 {
      PopRemovesHead(b.ring);
      var b1 := b.(ring := b.ring.Pop());
      forall q: nat | q < |b.prodAsleep| ensures !WakeProducers(b1).belt.prodAsleep[q] {
        WakeConserves(b1, q, me);
      }
    }
  }

  lemma PutEnterQueue(s: State, p: nat)
    requires Inv(s) && Enabled(s, PutEnter(p))
    ensures var t := Apply(s, PutEnter(p));
      Consistent(t.belt) && t.puts == t.takes + t.belt.ring.Contents()
  {
    var e := s.prods[p].bag;
    assert ProducerPermits(s, p) == 1;
    PutKeepsCounters(s.belt, e, p);
    if CanPlace(s.belt) {
      PushAppends(s.belt.ring, e);
    }
  }

  lemma PutEnterKeeps(s: State, p: nat)
    requires Inv(s) && Enabled(s, PutEnter(p))
    ensures Inv(Apply(s, PutEnter(p)))
  {
    var t := Apply(s, PutEnter(p));
    PutEnterQueue(s, p);
    PutFlags(s.belt, s.prods[p].bag, p, s.me, s.noticed);
    forall q | 0 <= q < |t.prods| ensures ProducerPermits(t, q) == 1 {
      PutEnterPermits(s, p, q);
    }
    PutEnterPermits(s, p, p);
  }

  lemma TakeEnterPermits(s: State, q: nat)
    requires Inv(s) && Enabled(s, TakeEnter)
    ensures WellFormed(Apply(s, TakeEnter))
    ensures q < |s.prods| ==> ProducerPermits(Apply(s, TakeEnter), q) == 1
    ensures ConsumerPermits(Apply(s, TakeEnter)) == 1
  {
    assert q < |s.prods| ==> ProducerPermits(s, q) == 1;
    TakeConserves(s.belt, s.noticed, s.me, q, s.me);
    TakeKeepsCounters(s.belt, s.noticed, s.me);
  }

  // What a take does to the queue.
  lemma TakeQueue(b: Belt, noticed: bool, m: nat)
    requires Consistent(b) && m < |b.consAsleep|
    ensures var r := TakeLocked(b, noticed, m).belt.ring;
      if Ordinary(b, noticed) && b.ring.count > 0 then b.ring.Contents() == [b.ring.slots[b.ring.busy]] + r.Contents()
      else r == b.ring
  {
    if Ordinary(b, noticed) && b.ring.count > 0 {
      PopRemovesHead(b.ring);
    }
  }

  lemma TakeEnterQueue(s: State)
    requires Inv(s) && Enabled(s, TakeEnter)
    ensures var t := Apply(s, TakeEnter);
      Consistent(t.belt) && t.puts == t.takes + t.belt.ring.Contents()
  {
    TakeKeepsCounters(s.belt, s.noticed, s.me);
    TakeQueue(s.belt, s.noticed, s.me);
  }

  lemma TakeEnterKeeps(s: State)
    requires Inv(s) && Enabled(s, TakeEnter)
    ensures Inv(Apply(s, TakeEnter))
  {
    var t := Apply(s, TakeEnter);
    TakeEnterQueue(s);
    TakeFlags(s.belt, s.me, s.noticed);
    forall q | 0 <= q < |t.prods| ensures ProducerPermits(t, q) == 1 {
      TakeEnterPermits(s, q);
    }
    TakeEnterPermits(s, 0);
  }

  lemma CloseEnterKeeps(s: State, total: int)
    requires Inv(s) && Enabled(s, CloseEnter(total))
    ensures Inv(Apply(s, CloseEnter(total)))
  {
    var b := s.belt.(total := total, closed := true);
    var t := Apply(s, CloseEnter(total));
    WakeKeepsCounters(b);
    WakeConserves(b, 0, s.me);
    forall q | 0 <= q < |t.prods| ensures ProducerPermits(t, q) == 1 {
      assert ProducerPermits(s, q) == 1;
      WakeConserves(b, q, s.me);
    }
  }

  lemma EmitKeeps(s: State)
    requires Inv(s) && Enabled(s, Emit)
    ensures Inv(Apply(s, Emit))
  {
    var t := Apply(s, Emit);
    forall q | 0 <= q < |t.prods| ensures ProducerPermits(t, q) == 1 {
      assert ProducerPermits(s, q) == 1;
    }
  }

  lemma ProducerStepKeeps(s: State, l: Label)
    requires Inv(s) && Enabled(s, l) && (l.StartPut? || l.PutWait? || l.PutLeave?)
    ensures Inv(Apply(s, l))
  {
    var t := Apply(s, l);
    forall q | 0 <= q < |t.prods| ensures ProducerPermits(t, q) == 1 {
      assert ProducerPermits(s, q) == 1;
    }
  }

  // The steps of the others that touch neither the belt's queue nor its flags.
  lemma LocalStepKeeps(s: State, l: Label)
    requires Inv(s) && Enabled(s, l)
    requires l.StartTake? || l.TakeWait? || l.TakeLeave? || l.CloseLeave? || l.Reset?
    ensures Inv(Apply(s, l))
  {
    var t := Apply(s, l);
    forall q | 0 <= q < |t.prods| ensures ProducerPermits(t, q) == 1 {
      assert ProducerPermits(s, q) == 1;
    }
  }

  lemma StepKeeps(s: State, l: Label)
    requires Inv(s) && Enabled(s, l)
    ensures Inv(Apply(s, l))
  {
    match l
    case PutEnter(p) => PutEnterKeeps(s, p);
    case TakeEnter => TakeEnterKeeps(s);
    case CloseEnter(total) => CloseEnterKeeps(s, total);
    case Emit => EmitKeeps(s);
    case StartPut(p, e) => ProducerStepKeeps(s, l);
    case PutWait(p) => ProducerStepKeeps(s, l);
    case PutLeave(p) => ProducerStepKeeps(s, l);
    case _ => LocalStepKeeps(s, l);
  }

  /** Every reachable state keeps the permits, the meaning of the flags and the queue. */
  lemma {:induction false} RunKeeps(s: State, run: seq<Label>)
    requires Inv(s) && Runs(s, run)
    ensures Inv(After(s, run))
    decreases |run|
  {
    if run != [] {
      StepKeeps(s, run[0]);
      RunKeeps(Apply(s, run[0]), run[1..]);
    }
  }

  // ---------------------------------------------------------------- what the invariant gives

  /** The ring buffer is a first-in first-out queue of bounded length: over any run the bags
      removed are the oldest bags placed, and the buffer holds exactly the others. */
  lemma QueueOverRuns(s: State, run: seq<Label>)
    requires Init(s) && Runs(s, run)
    ensures var t := After(s, run);
      && t.takes <= t.puts
      && t.belt.ring.Valid()
      && t.belt.ring.Contents() == t.puts[|t.takes|..]
      && |t.puts| - |t.takes| <= s.belt.ring.Capacity()
  {
    InitHolds(s);
    RunKeeps(s, run);
    RunKeepsCapacity(s, run);
  }

  lemma StepKeepsCapacity(s: State, l: Label)
    requires Inv(s) && Enabled(s, l)
    ensures Apply(s, l).belt.ring.Capacity() == s.belt.ring.Capacity()
  {
  }

  lemma {:induction false} RunKeepsCapacity(s: State, run: seq<Label>)
    requires Inv(s) && Runs(s, run)
    ensures After(s, run).belt.ring.Capacity() == s.belt.ring.Capacity()
    decreases |run|
  {
    if run != [] {
      StepKeeps(s, run[0]);
      StepKeepsCapacity(s, run[0]);
      RunKeepsCapacity(Apply(s, run[0]), run[1..]);
    }
  }

  /** No lost wake-up: while there is room no producer at its semaphore is without a
      permission, and while there are bags the consumer is not without one. */
  lemma NoLostWakeUp(s: State)
    requires Inv(s)
    ensures s.belt.ring.count < s.belt.ring.Capacity() ==>
      forall p :: 0 <= p < |s.prods| && s.prods[p].AtSemaphore? ==>
        s.prodSem[p] == 1 || ToProducer(p) in s.pending
    ensures s.belt.ring.count > 0 && s.cons.Waiting? ==> s.consSem == 1 || ToConsumer(s.me) in s.pending
  {
    forall p | 0 <= p < |s.prods| && s.prods[p].AtSemaphore? && !s.belt.prodAsleep[p]
      ensures s.prodSem[p] == 1 || ToProducer(p) in s.pending
    {
      assert ProducerPermits(s, p) == 1;
      AbsentIsZero(s.pending, ToProducer(p));
    }
    AbsentIsZero(s.pending, ToConsumer(s.me));
  }

  // Steps that finish what has been started, as opposed to new requests.
  ghost predicate Internal(l: Label) {
    !l.StartPut? && !l.StartTake? && !l.CloseEnter? && !l.Reset?
  }

  ghost predicate Stuck(s: State)
    requires WellFormed(s)
  {
    forall l :: Internal(l) ==> !Enabled(s, l)
  }

  // Every process has finished, or sleeps for the right reason.
  ghost predicate AllRestOrSleep(s: State)
    requires WellFormed(s)
  {
    && s.holder.Free?
    && (forall p :: 0 <= p < |s.prods| ==> s.prods[p].Idle? || (s.prods[p].AtSemaphore? && s.belt.prodAsleep[p]))
    && (s.cons.Resting? || (s.cons.Waiting? && s.belt.consAsleep[s.me]))
  }

  /** The belt stops exactly when each process has finished or sleeps: a producer on a full
      belt, the consumer on an empty one. */
  lemma StuckExactlyWhenAsleep(s: State)
    requires Inv(s)
    ensures Stuck(s) <==> AllRestOrSleep(s)
  {
    if Stuck(s) {
      assert !Enabled(s, Emit) && !Enabled(s, TakeLeave) && !Enabled(s, CloseLeave);
      assert !Enabled(s, TakeWait) && !Enabled(s, TakeEnter);
      forall p | 0 <= p < |s.prods| ensures !s.prods[p].Inside? {
        assert !Enabled(s, PutLeave(p));
      }
      forall p | 0 <= p < |s.prods|
        ensures s.prods[p].Idle? || (s.prods[p].AtSemaphore? && s.belt.prodAsleep[p])
      {
        assert ProducerPermits(s, p) == 1;
        assert !Enabled(s, PutWait(p)) && !Enabled(s, PutEnter(p));
      }
    }
    forall p | 0 <= p < |s.prods| && s.belt.prodAsleep[p] ensures s.prodSem[p] == 0 {
      assert ProducerPermits(s, p) == 1;
    }
  }

  /** Deadlock freedom: with a put and a take both in progress some step is possible. */
  lemma DeadlockFree(s: State, p: nat)
    requires Inv(s) && p < |s.prods| && !s.prods[p].Idle? && !s.cons.Resting?
    ensures exists l :: Internal(l) && Enabled(s, l)
  {
    StuckExactlyWhenAsleep(s);
  }

  /** The first take that enters after the closing is announced returns the dummy bag and
      leaves the queue alone. */
  lemma FirstTakeAfterClosing(s: State)
    requires Inv(s) && s.belt.closed && !s.noticed && Enabled(s, TakeEnter)
    ensures var t := Apply(s, TakeEnter);
      && t.cons == Within(true, NO_BAG) && t.noticed
      && t.takes == s.takes && t.belt == s.belt && t.dummies == 1
  {
  }

  lemma StepKeepsClosing(s: State, l: Label)
    requires Inv(s) && Enabled(s, l) && l != Reset && s.belt.closed
    ensures Apply(s, l).belt.closed && Apply(s, l).noticed == (s.noticed || l == TakeEnter)
  {
  }

  /** One dummy per load: once closed, and until the reset, a run returns the dummy exactly
      once if any take enters, and never otherwise. */
  lemma {:induction false} OneDummyPerLoad(s: State, run: seq<Label>)
    requires Inv(s) && s.belt.closed && Runs(s, run) && Reset !in run
    ensures var t := After(s, run);
      t.belt.closed && t.noticed == (s.noticed || TakeEnter in run) && t.dummies == One(t.noticed)
    decreases |run|
  {
    RunKeeps(s, run);
    if run != [] {
      StepKeeps(s, run[0]);
      StepKeepsClosing(s, run[0]);
      OneDummyPerLoad(Apply(s, run[0]), run[1..]);
      assert run == [run[0]] + run[1..];
    }
  }

  // Nothing is announced and nothing reset.
  ghost predicate OneLoad(run: seq<Label>) {
    forall k :: 0 <= k < |run| ==> run[k] != Reset && !run[k].CloseEnter?
  }

  lemma StepKeepsTotal(s: State, l: Label)
    requires Inv(s) && Enabled(s, l) && l != Reset && !l.CloseEnter?
    ensures Apply(s, l).belt.total == s.belt.total
  {
  }

  lemma {:induction false} RunKeepsTotal(s: State, run: seq<Label>)
    requires Inv(s) && Runs(s, run) && OneLoad(run)
    ensures After(s, run).belt.total == s.belt.total
    decreases |run|
  {
    if run != [] {
      StepKeeps(s, run[0]);
      StepKeepsTotal(s, run[0]);
      RunKeepsTotal(Apply(s, run[0]), run[1..]);
    }
  }

  /** The number that the desk announces is what the consumer is told in this load, from the first
      take after the announcement on, whatever happens in between; before that it is told -1. */
  lemma AnnouncedTotalIsRead(s: State, total: int, run: seq<Label>)
    requires Inv(s) && !s.noticed && Enabled(s, CloseEnter(total)) && Runs(Apply(s, CloseEnter(total)), run)
    requires OneLoad(run)
    ensures var t := After(Apply(s, CloseEnter(total)), run);
      TotalRead(t.belt, t.noticed) == if TakeEnter in run then total else -1
  {
    var c := Apply(s, CloseEnter(total));
    StepKeeps(s, CloseEnter(total));
    RunKeepsTotal(c, run);
    OneDummyPerLoad(c, run);
  }

  // On an empty belt the histories may start afresh.
  lemma EmptyBeltForgets(s: State)
    requires Inv(s) && s.belt.ring.count == 0
    ensures Inv(s.(puts := [], takes := []))
  {
    var t := s.(puts := [], takes := []);
    forall p | 0 <= p < |t.prods| ensures ProducerPermits(t, p) == 1 {
      assert ProducerPermits(s, p) == 1;
    }
  }
}
