/**
 The main belt as interleaved processes: any number of producers and a chain of any
 number of readers. Steps are cut at semaphores and at the lock; the semaphores that a
 process raises inside the lock are raised one by one.

 `right` follows the single right to read. It takes no part in deciding what may happen;
 the invariant shows where in the semaphores, flags and processes it is found.
 */
module MainBeltProtocol {
  import opened Bags
  import opened RingBuffers
  import opened Wakeups
  import opened MainBelt
  import opened Sums

  datatype Producer = Idle | AtSemaphore(bag: Bag) | Awake(bag: Bag) | Inside(bag: Bag, placed: bool)

  // `Holding` is the time between the end of a read and the advance or extraction it owes.
  datatype Reader = Away | Waiting | Roused | Looking(found: bool, bag: Bag) | Holding(bag: Bag) | Extracting

  datatype Holder = Free | ByProducer(p: nat) | ByReader(i: nat)

  datatype Right = OnSemaphore(i: nat) | With(i: nat) | Asleep | AboutToBeRaised

  datatype State = State(
    line: Line, holder: Holder, pending: seq<Signal>,
    prodSem: seq<nat>, consSem: seq<nat>,
    prods: seq<Producer>, readers: seq<Reader>,
    right: Right, puts: seq<Bag>, takes: seq<Bag>)

  datatype Label =
    | StartPut(p: nat, e: Bag) | PutWait(p: nat) | PutEnter(p: nat) | PutLeave(p: nat)
    | StartRead(i: nat) | ReadWait(i: nat) | ReadEnter(i: nat) | ReadLeave(i: nat)
    | Advance(i: nat) | ExtractEnter(i: nat) | ExtractLeave(i: nat)
    | Emit

  ghost predicate WellFormed(s: State) {
    && |s.prodSem| == |s.prods| == |s.line.prodAsleep|
    && |s.consSem| == |s.readers| >= 1
    && s.line.ring.Valid()
  }

  ghost predicate Enabled(s: State, l: Label)
    requires WellFormed(s)
  {
    match l
    case StartPut(p, e) => p < |s.prods| && s.prods[p].Idle?
    case PutWait(p) => p < |s.prods| && s.prods[p].AtSemaphore? && s.prodSem[p] > 0
    case PutEnter(p) => p < |s.prods| && s.prods[p].Awake? && s.holder.Free?
    case PutLeave(p) => p < |s.prods| && s.prods[p].Inside? && s.holder == ByProducer(p) && s.pending == []
    case StartRead(i) => i < |s.readers| && s.readers[i].Away?
    case ReadWait(i) => i < |s.readers| && s.readers[i].Waiting? && s.consSem[i] > 0
    case ReadEnter(i) => i < |s.readers| && s.readers[i].Roused? && s.holder.Free?
    case ReadLeave(i) => i < |s.readers| && s.readers[i].Looking? && s.holder == ByReader(i) && s.pending == []
    case Advance(i) => i < |s.readers| && s.readers[i].Holding?
    case ExtractEnter(i) => i < |s.readers| && s.readers[i].Holding? && s.holder.Free? && s.line.ring.count >= 1
    case ExtractLeave(i) => i < |s.readers| && s.readers[i].Extracting? && s.holder == ByReader(i) && s.pending == []
    case Emit => s.pending != []
  }

  // The bag at the head of the belt.
  function Head(b: Line): Bag
    requires b.ring.busy < |b.ring.slots|
  {
    b.ring.slots[b.ring.busy]
  }

  ghost function Raise(s: State, x: Signal): State {
    match x
    case ToProducer(p) => if p < |s.prodSem| then s.(prodSem := s.prodSem[p := s.prodSem[p] + 1]) else s
    case ToConsumer(i) =>
      if i < |s.consSem| then s.(consSem := s.consSem[i := s.consSem[i] + 1], right := OnSemaphore(i)) else s
  }

  ghost function Apply(s: State, l: Label): State
    requires WellFormed(s) && Enabled(s, l)
  {
    match l
    case StartPut(p, e) => s.(prods := s.prods[p := AtSemaphore(e)])
    case PutWait(p) => s.(prodSem := s.prodSem[p := s.prodSem[p] - 1], prods := s.prods[p := Awake(s.prods[p].bag)])
    case PutEnter(p) =>
      var e := s.prods[p].bag;
      var r := PutLocked(s.line, e, p);
      s.(line := r.line, holder := ByProducer(p), pending := r.signals,
         prods := s.prods[p := Inside(e, HasRoom(s.line))],
         puts := if HasRoom(s.line) then s.puts + [e] else s.puts,
         right := if s.line.consumerWaiting && !r.line.consumerWaiting then AboutToBeRaised else s.right)
    case PutLeave(p) =>
      s.(holder := Free,
         prods := s.prods[p := if s.prods[p].placed then Idle else AtSemaphore(s.prods[p].bag)])
    case StartRead(i) => s.(readers := s.readers[i := Waiting])
    case ReadWait(i) =>
      s.(consSem := s.consSem[i := s.consSem[i] - 1], readers := s.readers[i := Roused], right := With(i))
    case ReadEnter(i) =>
      var found := s.line.ring.count > 0;
      s.(line := ReadLocked(s.line), holder := ByReader(i), pending := [],
         readers := s.readers[i := Looking(found, if found then Head(s.line) else NO_BAG)],
         right := if found then s.right else Asleep)
    case ReadLeave(i) =>
      s.(holder := Free,
         readers := s.readers[i := if s.readers[i].found then Holding(s.readers[i].bag) else Waiting])
    case Advance(i) => Raise(s.(readers := s.readers[i := Away]), ToConsumer(Successor(i, |s.readers|)))
    case ExtractEnter(i) =>
      var r := ExtractLocked(s.line);
      s.(line := r.line, holder := ByReader(i), pending := r.signals,
         readers := s.readers[i := Extracting], takes := s.takes + [Head(s.line)],
         right := if r.line.consumerWaiting then Asleep else AboutToBeRaised)
    case ExtractLeave(i) => s.(holder := Free, readers := s.readers[i := Away])
    case Emit => Raise(s, s.pending[0]).(pending := s.pending[1..])
  }

  ghost predicate Runs(s: State, run: seq<Label>)
    decreases |run|
  {
    run == [] || (WellFormed(s) && Enabled(s, run[0]) && Runs(Apply(s, run[0]), run[1..]))
  }

  ghost function After(s: State, run: seq<Label>): State
    requires Runs(s, run)
    decreases |run|
  {
    if run == [] then s else After(Apply(s, run[0]), run[1..])
  }

  // ---------------------------------------------------------------- the invariant

  ghost function ProducerPermits(s: State, p: nat): nat
    requires WellFormed(s) && p < |s.prods|
  {
    s.prodSem[p] + One(s.prods[p].Awake?) + One(s.line.prodAsleep[p]) + Times(s.pending, ToProducer(p))
  }

  ghost predicate Producers(s: State)
    requires WellFormed(s)
  {
    && (forall p :: 0 <= p < |s.prods| ==> ProducerPermits(s, p) == 1)
    && (forall p :: 0 <= p < |s.prods| && s.line.prodAsleep[p] ==> s.line.ring.count == s.line.ring.Capacity())
  }

  // The reader has passed its semaphore and still owes an advance or an extraction.
  predicate Carries(r: Reader) { r.Roused? || (r.Looking? && r.found) || r.Holding? }

  // The right is in one place, and that place is where `right` says.
  ghost predicate OneRight(s: State)
    requires WellFormed(s)
  {
    && (forall i :: 0 <= i < |s.readers| ==> s.consSem[i] == One(s.right == OnSemaphore(i)))
    && (forall i :: 0 <= i < |s.readers| ==> (Carries(s.readers[i]) <==> s.right == With(i)))
    && (s.line.consumerWaiting <==> s.right.Asleep?)
    && Times(s.pending, ToConsumer(0)) == One(s.right.AboutToBeRaised?)
    && (forall k :: 0 <= k < |s.pending| && s.pending[k].ToConsumer? ==> s.pending[k].id == 0)
    && (s.right.OnSemaphore? || s.right.With? ==> s.right.i < |s.readers|)
  }

  // Past the first reader the right is only met on a belt with bags, and a reader that
  // has read remembers the bag that is still at the head.
  ghost predicate RightMeans(s: State)
    requires WellFormed(s)
  {
    && (s.right.Asleep? ==> s.line.ring.count == 0)
    && (s.right.AboutToBeRaised? ==> s.line.ring.count > 0)
    && ((s.right.OnSemaphore? || s.right.With?) && s.right.i != 0 ==> s.line.ring.count > 0)
    && (forall i :: 0 <= i < |s.readers| && HasRead(s.readers[i]) ==>
          s.line.ring.count > 0 && s.readers[i].bag == Head(s.line))
  }

  predicate HasRead(r: Reader) { (r.Looking? && r.found) || r.Holding? }

  ghost predicate HolderIsInside(s: State) {
    && (forall p :: 0 <= p < |s.prods| ==> (s.prods[p].Inside? <==> s.holder == ByProducer(p)))
    && (forall i :: 0 <= i < |s.readers| ==>
          (s.readers[i].Looking? || s.readers[i].Extracting? <==> s.holder == ByReader(i)))
    && (s.holder.ByProducer? ==> s.holder.p < |s.prods|)
    && (s.holder.ByReader? ==> s.holder.i < |s.readers|)
    && (s.holder.Free? ==> s.pending == [])
  }

  ghost predicate Inv(s: State) {
    && WellFormed(s)
    && Consistent(s.line)
    && HolderIsInside(s)
    && Producers(s)
    && OneRight(s)
    && RightMeans(s)
    && s.puts == s.takes + s.line.ring.Contents()
  }

  ghost predicate Init(s: State) {
    && WellFormed(s)
    && s.line.ring.count == 0 && !s.line.consumerWaiting
    && s.line.prodAsleep == Cleared(s.line.prodAsleep) && s.line.prodWaiting == 0
    && s.holder.Free? && s.pending == []
    && (forall p :: 0 <= p < |s.prods| ==> s.prods[p].Idle? && s.prodSem[p] == 1)
    && (forall i :: 0 <= i < |s.readers| ==> s.readers[i].Away? && s.consSem[i] == One(i == 0))
    && s.right == OnSemaphore(0)
    && s.puts == [] && s.takes == []
  }

  lemma InitHolds(s: State)
    requires Init(s)
    ensures Inv(s)
  {
    CountSetZero(s.line.prodAsleep);
  }

  // ---------------------------------------------------------------- one step

  lemma PlaceFacts(b: Line, e: Bag)
    requires Consistent(b) && HasRoom(b)
    ensures var r := Place(b, e);
      && r.line.ring == b.ring.Push(e) && r.line.ring.Valid()
      && r.line.prodAsleep == b.prodAsleep && r.line.prodWaiting == b.prodWaiting
      && (forall p: nat :: Times(r.signals, ToProducer(p)) == 0)
      && Times(r.signals, ToConsumer(0)) == One(b.consumerWaiting && b.ring.count == 0)
      && r.line.consumerWaiting == (b.consumerWaiting && b.ring.count > 0)
      && (forall k :: 0 <= k < |r.signals| ==> r.signals[k] == ToConsumer(0))
  {
    PushAppends(b.ring, e);
  }

  // A put leaves producer p's permit once, in its flag or on its semaphore, and raises the
  // first reader's semaphore exactly when the right was asleep on an empty belt.
  lemma PutFacts(b: Line, e: Bag, p: nat, q: nat)
    requires Consistent(b) && p < |b.prodAsleep| && !b.prodAsleep[p] && q < |b.prodAsleep|
    ensures var r := PutLocked(b, e, p);
      && Consistent(r.line) && |r.line.prodAsleep| == |b.prodAsleep|
      && r.line.ring == (if HasRoom(b) then b.ring.Push(e) else b.ring)
      && One(r.line.prodAsleep[q]) + Times(r.signals, ToProducer(q)) == One(b.prodAsleep[q]) + One(q == p)
      && Times(r.signals, ToConsumer(0)) == One(HasRoom(b) && b.consumerWaiting && b.ring.count == 0)
      && r.line.consumerWaiting == (b.consumerWaiting && !(HasRoom(b) && b.ring.count == 0))
      && (forall k :: 0 <= k < |r.signals| && r.signals[k].ToConsumer? ==> r.signals[k].id == 0)
  {
    CountSetUpdate(b.prodAsleep, p);
    var r := Place(b, e);
    if HasRoom(b) {
      PlaceFacts(b, e);
    }
    TimesAppend(r.signals, [ToProducer(p)], ToProducer(q));
    TimesAppend(r.signals, [ToProducer(p)], ToConsumer(0));
  }

  lemma PutEnterKeeps(s: State, p: nat)
    requires Inv(s) && Enabled(s, PutEnter(p))
    ensures Inv(Apply(s, PutEnter(p)))
  {
    var e := s.prods[p].bag;
    var t := Apply(s, PutEnter(p));
    assert ProducerPermits(s, p) == 1;
    PutFacts(s.line, e, p, p);
    if HasRoom(s.line) {
      PushAppends(s.line.ring, e);
    }
    forall q | 0 <= q < |t.prods| ensures ProducerPermits(t, q) == 1 {
      assert ProducerPermits(s, q) == 1;
      PutFacts(s.line, e, p, q);
    }
  }

  // Extracting wakes every sleeping producer of a full belt, and either raises the first
  // reader's semaphore or leaves the right asleep on an empty belt.
  lemma ExtractFacts(b: Line, q: nat)
    requires Consistent(b) && b.ring.count >= 1 && q < |b.prodAsleep|
    requires b.ring.count < b.ring.Capacity() ==> !b.prodAsleep[q]
    ensures var r := ExtractLocked(b);
      && |r.line.prodAsleep| == |b.prodAsleep| && !r.line.prodAsleep[q]
      && Times(r.signals, ToProducer(q)) == One(b.prodAsleep[q])
  {
    PopRemovesHead(b.ring);
    CountSetZero(b.prodAsleep);
    RaisedOnce(b.prodAsleep, q);
    var b1 := b.(ring := b.ring.Pop());
    var r := if b1.ring.count == b1.ring.Capacity() - 1 then WakeProducers(b1) else LineEffect(b1, []);
    TimesAppend(r.signals, [ToConsumer(0)], ToProducer(q));
  }

  lemma ExtractRight(b: Line)
    requires Consistent(b) && b.ring.count >= 1 && !b.consumerWaiting
    ensures var r := ExtractLocked(b);
      && Consistent(r.line) && r.line.ring == b.ring.Pop()
      && r.line.consumerWaiting == (b.ring.count == 1)
      && Times(r.signals, ToConsumer(0)) == One(b.ring.count > 1)
      && (forall k :: 0 <= k < |r.signals| && r.signals[k].ToConsumer? ==> r.signals[k].id == 0)
  {
    PopRemovesHead(b.ring);
    CountSetZero(Cleared(b.prodAsleep));
    RaisedOnce(b.prodAsleep, 0);
    var b1 := b.(ring := b.ring.Pop());
    var r := if b1.ring.count == b1.ring.Capacity() - 1 then WakeProducers(b1) else LineEffect(b1, []);
    TimesAppend(r.signals, [ToConsumer(0)], ToConsumer(0));
  }

  lemma ExtractEnterKeeps(s: State, i: nat)
    requires Inv(s) && Enabled(s, ExtractEnter(i))
    ensures Inv(Apply(s, ExtractEnter(i)))
  {
    var t := Apply(s, ExtractEnter(i));
    ExtractRight(s.line);
    PopRemovesHead(s.line.ring);
    forall q | 0 <= q < |t.prods|
      ensures q < |t.line.prodAsleep| && !t.line.prodAsleep[q] && ProducerPermits(t, q) == 1
    {
      assert ProducerPermits(s, q) == 1;
      ExtractFacts(s.line, q);
    }
  }

  lemma EmitKeeps(s: State)
    requires Inv(s) && Enabled(s, Emit)
    ensures Inv(Apply(s, Emit))
  {
    var t := Apply(s, Emit);
    if s.pending[0].ToConsumer? {
      assert Times(s.pending, ToConsumer(0)) >= 1;
    }
    forall q | 0 <= q < |t.prods| ensures ProducerPermits(t, q) == 1 {
      assert ProducerPermits(s, q) == 1;
    }
  }

  lemma ReaderStepKeeps(s: State, l: Label)
    requires Inv(s) && Enabled(s, l)
    requires l.StartRead? || l.ReadWait? || l.ReadEnter? || l.ReadLeave? || l.Advance? || l.ExtractLeave?
    ensures Inv(Apply(s, l))
  {
    var t := Apply(s, l);
    forall q | 0 <= q < |t.prods| ensures ProducerPermits(t, q) == 1 {
      assert ProducerPermits(s, q) == 1;
    }
  }

  lemma ProducerStepKeeps(s: State, l: Label)
    requires Inv(s) && Enabled(s, l)
    requires l.StartPut? || l.PutWait? || l.PutLeave?
    ensures Inv(Apply(s, l))
  {
    var t := Apply(s, l);
    forall q | 0 <= q < |t.prods| ensures ProducerPermits(t, q) == 1 {
      assert ProducerPermits(s, q) == 1;
    }
  }

  lemma StepKeeps(s: State, l: Label)
    requires Inv(s) && Enabled(s, l)
    ensures Inv(Apply(s, l))
  {
    match l
    case PutEnter(p) => PutEnterKeeps(s, p);
    case ExtractEnter(i) => ExtractEnterKeeps(s, i);
    case Emit => EmitKeeps(s);
    case StartPut(p, e) => ProducerStepKeeps(s, l);
    case PutWait(p) => ProducerStepKeeps(s, l);
    case PutLeave(p) => ProducerStepKeeps(s, l);
    case _ => ReaderStepKeeps(s, l);
  }

  /** Every reachable state keeps the single right, its meaning, the producers' permits and
      the queue, whatever the number of producers and readers. */
  lemma {:induction false} RunKeeps(s: State, run: seq<Label>)
    requires Inv(s) && Runs(s, run)
    ensures Inv(After(s, run))
    decreases |run|
  {
    if run != [] {
      StepKeeps(s, run[0]);
      RunKeeps(Apply(s, run[0]), run[1..]);
    }
  }

  // ---------------------------------------------------------------- what the invariant gives

  ghost function Carried(s: State): (r: seq<nat>)
    ensures |r| == |s.readers|
  {
    seq(|s.readers|, i requires 0 <= i < |s.readers| => One(Carries(s.readers[i])))
  }

  /** There is always exactly one right to read, counted over the readers' semaphores, the
      readers between a read and the advance or extraction it owes, the sleeping flag and the
      semaphores about to be raised. */
  lemma OneRightCounted(s: State)
    requires Inv(s)
    ensures Sum(s.consSem) + Sum(Carried(s)) + One(s.line.consumerWaiting) + Times(s.pending, ToConsumer(0)) == 1
  {
    var k := if s.right.OnSemaphore? then s.right.i else |s.readers|;
    SumOfOne(s.consSem, k);
    var j := if s.right.With? then s.right.i else |s.readers|;
    SumOfOne(Carried(s), j);
  }

  /** At most one reader at a time has read and not yet advanced or extracted; the belt then
      has bags and the one at its head is the one that was read. */
  lemma HeldBagIsHead(s: State, i: nat, j: nat)
    requires Inv(s) && i < |s.readers| && s.readers[i].Holding?
    ensures s.line.ring.Contents() != [] && s.line.ring.Contents()[0] == s.readers[i].bag
    ensures j < |s.readers| && Carries(s.readers[j]) ==> j == i
  {
    PopRemovesHead(s.line.ring);
  }

  /** An extraction, made in a later locked section than the read, removes exactly the bag
      that this reader read last. */
  lemma ExtractsWhatWasRead(s: State, i: nat)
    requires Inv(s) && i < |s.readers| && s.readers[i].Holding? && s.holder.Free?
    ensures Enabled(s, ExtractEnter(i))
    ensures var t := Apply(s, ExtractEnter(i));
      && t.takes == s.takes + [s.readers[i].bag]
      && s.line.ring.Contents() == [s.readers[i].bag] + t.line.ring.Contents()
  {
    HeldBagIsHead(s, i, i);
    ExtractRight(s.line);
    PopRemovesHead(s.line.ring);
  }

  /** The belt is a bounded first-in first-out queue over every run. */
  lemma QueueOverRuns(s: State, run: seq<Label>)
    requires Init(s) && Runs(s, run)
    ensures var t := After(s, run);
      && t.takes <= t.puts
      && t.line.ring.Valid() && t.line.ring.Contents() == t.puts[|t.takes|..]
      && |t.puts| - |t.takes| <= t.line.ring.Capacity()
  {
    InitHolds(s);
    RunKeeps(s, run);
  }

  // Steps that finish what is in progress; a reader that holds a bag always advances or extracts.
  ghost predicate Internal(l: Label) { !l.StartPut? && !l.StartRead? }

  ghost predicate Stuck(s: State)
    requires WellFormed(s)
  {
    forall l :: Internal(l) ==> !Enabled(s, l)
  }

  ghost predicate AllRestOrSleep(s: State)
    requires WellFormed(s)
  {
    && s.holder.Free?
    && (forall p :: 0 <= p < |s.prods| ==> s.prods[p].Idle? || (s.prods[p].AtSemaphore? && s.line.prodAsleep[p]))
    && (forall i :: 0 <= i < |s.readers| ==>
          s.readers[i].Away? || (s.readers[i].Waiting? && s.right != OnSemaphore(i)))
  }

  lemma StuckExactlyWhenAsleep(s: State)
    requires Inv(s)
    ensures Stuck(s) <==> AllRestOrSleep(s)
  {
    if Stuck(s) {
      assert !Enabled(s, Emit);
      forall p | 0 <= p < |s.prods| ensures !s.prods[p].Inside? {
        assert !Enabled(s, PutLeave(p));
      }
      forall i | 0 <= i < |s.readers| ensures !s.readers[i].Looking? && !s.readers[i].Extracting? {
        assert !Enabled(s, ReadLeave(i)) && !Enabled(s, ExtractLeave(i));
      }
      forall p | 0 <= p < |s.prods|
        ensures s.prods[p].Idle? || (s.prods[p].AtSemaphore? && s.line.prodAsleep[p])
      {
        assert ProducerPermits(s, p) == 1;
        assert !Enabled(s, PutWait(p)) && !Enabled(s, PutEnter(p));
      }
      forall i | 0 <= i < |s.readers|
        ensures s.readers[i].Away? || (s.readers[i].Waiting? && s.right != OnSemaphore(i))
      {
        assert !Enabled(s, ReadWait(i)) && !Enabled(s, ReadEnter(i)) && !Enabled(s, Advance(i));
      }
    }
    forall p | 0 <= p < |s.prods| && s.line.prodAsleep[p] ensures s.prodSem[p] == 0 {
      assert ProducerPermits(s, p) == 1;
    }
  }

  // ---------------------------------------------------------------- no call is lost

  function AskedFor(run: seq<Label>): multiset<Bag> {
    if run == [] then multiset{}
    else (if run[0].StartPut? then multiset{run[0].e} else multiset{}) + AskedFor(run[1..])
  }

  // The bag a producer has yet to place.
  function InHand(p: Producer): multiset<Bag> {
    if p.AtSemaphore? || p.Awake? || (p.Inside? && !p.placed) then multiset{p.bag} else multiset{}
  }

  function Hands(prods: seq<Producer>): (r: seq<multiset<Bag>>)
    ensures |r| == |prods| && forall p :: 0 <= p < |r| ==> r[p] == InHand(prods[p])
  {
    seq(|prods|, p requires 0 <= p < |prods| => InHand(prods[p]))
  }

  // Producer p changes and nobody else.
  lemma OneHandMoves(prods: seq<Producer>, p: nat, x: Producer, d: multiset<Bag>)
    requires p < |prods| && InHand(x) == InHand(prods[p]) + d
    ensures Union(Hands(prods[p := x])) == Union(Hands(prods)) + d
  {
    UnionShrinks(Hands(prods[p := x]), Hands(prods), p, d);
  }

  lemma StartAccounts(s: State, p: nat, e: Bag)
    requires WellFormed(s) && Enabled(s, StartPut(p, e))
    ensures Union(Hands(Apply(s, StartPut(p, e)).prods)) == Union(Hands(s.prods)) + multiset{e}
  {
    OneHandMoves(s.prods, p, AtSemaphore(e), multiset{e});
  }

  lemma EnterAccounts(s: State, p: nat)
    requires WellFormed(s) && Enabled(s, PutEnter(p))
    ensures var t := Apply(s, PutEnter(p));
      Union(Hands(t.prods)) + multiset(t.puts) == Union(Hands(s.prods)) + multiset(s.puts)
  {
    var t, e := Apply(s, PutEnter(p)), s.prods[p].bag;
    assert t.prods[p := s.prods[p]] == s.prods;
    OneHandMoves(t.prods, p, s.prods[p], if HasRoom(s.line) then multiset{e} else multiset{});
  }

  lemma WaitingAccounts(s: State, l: Label)
    requires WellFormed(s) && Enabled(s, l) && (l.PutWait? || l.PutLeave?)
    ensures Apply(s, l).puts == s.puts && Union(Hands(Apply(s, l).prods)) == Union(Hands(s.prods))
  {
    OneHandMoves(s.prods, l.p, Apply(s, l).prods[l.p], multiset{});
  }

  lemma OthersLeavePuts(s: State, l: Label)
    requires WellFormed(s) && Enabled(s, l)
    requires !l.StartPut? && !l.PutWait? && !l.PutEnter? && !l.PutLeave?
    ensures Apply(s, l).puts == s.puts && Apply(s, l).prods == s.prods
  {
  }

  // What a step does to the bags in hand and on the belt.
  lemma StepAccounts(s: State, l: Label)
    requires WellFormed(s) && Enabled(s, l)
    ensures var t := Apply(s, l);
      Union(Hands(t.prods)) + multiset(t.puts)
        == Union(Hands(s.prods)) + multiset(s.puts) + if l.StartPut? then multiset{l.e} else multiset{}
  {
    match l
    case StartPut(p, e) => StartAccounts(s, p, e);
    case PutEnter(p) => EnterAccounts(s, p);
    case PutWait(_) => WaitingAccounts(s, l);
    case PutLeave(_) => WaitingAccounts(s, l);
    case _ => OthersLeavePuts(s, l);
  }

  lemma EmptyHands(prods: seq<Producer>)
    requires forall p :: 0 <= p < |prods| ==> InHand(prods[p]) == multiset{}
    ensures Union(Hands(prods)) == multiset{}
  {
    UnionEmpty(Hands(prods));
  }

  lemma {:induction false} RunAccounts(s: State, run: seq<Label>)
    requires Runs(s, run)
    ensures Union(Hands(After(s, run).prods)) + multiset(After(s, run).puts)
      == Union(Hands(s.prods)) + multiset(s.puts) + AskedFor(run)
    decreases |run|
  {
    if run != [] {
      StepAccounts(s, run[0]);
      RunAccounts(Apply(s, run[0]), run[1..]);
    }
  }

  /** Every bag a producer is asked to put is placed once or still in that producer's hand: a put
      ends only when its bag is on the belt, however often it finds the belt full. */
  lemma EveryBagIsPlaced(s: State, run: seq<Label>)
    requires Init(s) && Runs(s, run)
    ensures AskedFor(run) == multiset(After(s, run).puts) + Union(Hands(After(s, run).prods))
  {
    EmptyHands(s.prods);
    RunAccounts(s, run);
    assert multiset(s.puts) == multiset{};
    assert Union(Hands(s.prods)) + multiset(s.puts) + AskedFor(run) == AskedFor(run);
  }

  function ReadsBegun(run: seq<Label>, i: nat): nat {
    if run == [] then 0 else (if run[0] == StartRead(i) then 1 else 0) + ReadsBegun(run[1..], i)
  }

  function ReadsAnswered(run: seq<Label>, i: nat): nat {
    if run == [] then 0
    else (if run[0] == Advance(i) || run[0] == ExtractEnter(i) then 1 else 0) + ReadsAnswered(run[1..], i)
  }

  // The reader is in a read, or has read and not answered.
  predicate Reads(r: Reader) {
    !r.Away? && !r.Extracting?
  }

  lemma StepReads(s: State, l: Label, i: nat)
    requires WellFormed(s) && Enabled(s, l) && i < |s.readers|
    ensures |Apply(s, l).readers| == |s.readers|
    ensures One(Reads(Apply(s, l).readers[i])) + (if l == Advance(i) || l == ExtractEnter(i) then 1 else 0)
      == One(Reads(s.readers[i])) + if l == StartRead(i) then 1 else 0
  {
  }

  lemma {:induction false} RunReads(s: State, run: seq<Label>, i: nat)
    requires Runs(s, run) && i < |s.readers|
    ensures |After(s, run).readers| == |s.readers|
    ensures One(Reads(After(s, run).readers[i])) + ReadsAnswered(run, i) == One(Reads(s.readers[i])) + ReadsBegun(run, i)
    decreases |run|
  {
    if run != [] {
      StepReads(s, run[0], i);
      RunReads(Apply(s, run[0]), run[1..], i);
    }
  }

  /** A read ends only with a bag that the reader then lets go by or extracts: over every run each
      read begun is answered by one advance or extraction, except one still in progress. */
  lemma EveryReadIsAnswered(s: State, run: seq<Label>, i: nat)
    requires Init(s) && Runs(s, run) && i < |s.readers|
    ensures |After(s, run).readers| == |s.readers|
    ensures ReadsBegun(run, i) == ReadsAnswered(run, i) + One(Reads(After(s, run).readers[i]))
  {
    RunReads(s, run, i);
  }

  // How often the bag at the head has been let go by after a step, and after a run, if it was so
  // `letBy` times before.
  function OneMore(l: Label, letBy: nat): nat {
    if l.ExtractEnter? then 0 else if l.Advance? then letBy + 1 else letBy
  }

  function LetBy(run: seq<Label>, letBy: nat): nat {
    if run == [] then letBy else LetBy(run[1..], OneMore(run[0], letBy))
  }

  // The right is on its way to, or with, the reader whose turn it is with the bag at the head.
  ghost predicate InTurn(s: State, letBy: nat)
    requires WellFormed(s)
  {
    && (s.right.OnSemaphore? || s.right.With? ==> s.right.i == letBy % |s.readers|)
    && (s.right.Asleep? || s.right.AboutToBeRaised? ==> letBy == 0)
    && (letBy > 0 ==> s.line.ring.count > 0)
  }

  lemma NextInTurn(letBy: nat, n: nat)
    requires n >= 1
    ensures Successor(letBy % n, n) == (letBy + 1) % n
  {
    if letBy % n + 1 == n {
      DivideBy(letBy + 1, n, letBy / n + 1, 0);
    } else {
      DivideBy(letBy + 1, n, letBy / n, letBy % n + 1);
    }
  }

  lemma PutInTurn(s: State, p: nat, letBy: nat)
    requires Inv(s) && Enabled(s, PutEnter(p)) && InTurn(s, letBy)
    ensures WellFormed(Apply(s, PutEnter(p))) && InTurn(Apply(s, PutEnter(p)), letBy)
  {
    assert ProducerPermits(s, p) == 1;
    PutFacts(s.line, s.prods[p].bag, p, p);
  }

  lemma ReaderInTurn(s: State, l: Label, letBy: nat)
    requires Inv(s) && Enabled(s, l) && InTurn(s, letBy)
    requires l.ReadWait? || l.ReadEnter? || l.Advance? || l.ExtractEnter?
    ensures WellFormed(Apply(s, l)) && InTurn(Apply(s, l), OneMore(l, letBy))
  {
    if l.Advance? {
      NextInTurn(letBy, |s.readers|);
    } else if l.ExtractEnter? {
      ExtractRight(s.line);
    }
  }

  lemma EmitInTurn(s: State, letBy: nat)
    requires Inv(s) && Enabled(s, Emit) && InTurn(s, letBy)
    ensures WellFormed(Apply(s, Emit)) && InTurn(Apply(s, Emit), letBy)
  {
    if s.pending[0].ToConsumer? {
      assert Times(s.pending, ToConsumer(0)) >= 1;
    }
  }

  lemma OtherInTurn(s: State, l: Label, letBy: nat)
    requires WellFormed(s) && Enabled(s, l) && InTurn(s, letBy)
    requires l.StartPut? || l.PutWait? || l.PutLeave? || l.StartRead? || l.ReadLeave? || l.ExtractLeave?
    ensures WellFormed(Apply(s, l)) && InTurn(Apply(s, l), letBy)
  {
  }

  lemma StepInTurn(s: State, l: Label, letBy: nat)
    requires Inv(s) && Enabled(s, l) && InTurn(s, letBy)
    ensures WellFormed(Apply(s, l)) && InTurn(Apply(s, l), OneMore(l, letBy))
  {
    match l
    case PutEnter(p) => PutInTurn(s, p, letBy);
    case ReadWait(i) => ReaderInTurn(s, l, letBy);
    case ReadEnter(i) => ReaderInTurn(s, l, letBy);
    case Advance(i) => ReaderInTurn(s, l, letBy);
    case ExtractEnter(i) => ReaderInTurn(s, l, letBy);
    case Emit => EmitInTurn(s, letBy);
    case _ => OtherInTurn(s, l, letBy);
  }

  lemma {:induction false} RunInTurn(s: State, run: seq<Label>, letBy: nat)
    requires Inv(s) && Runs(s, run) && InTurn(s, letBy)
    ensures WellFormed(After(s, run)) && InTurn(After(s, run), LetBy(run, letBy))
    decreases |run|
  {
    if run != [] {
      StepInTurn(s, run[0], letBy);
      StepKeeps(s, run[0]);
      RunInTurn(Apply(s, run[0]), run[1..], OneMore(run[0], letBy));
    }
  }

  /** Every bag goes down the chain from its first reader, and round again if all let it by: over
      every run the reader that has read the bag at the head is the one at the place given by the
      number of readers that have let this bag by before it. */
  lemma EveryBagGoesDownTheChain(s: State, run: seq<Label>, i: nat)
    requires Init(s) && Runs(s, run)
    requires i < |After(s, run).readers| && HasRead(After(s, run).readers[i])
    ensures i == LetBy(run, 0) % |After(s, run).readers|
  {
    InitHolds(s);
    RunInTurn(s, run, 0);
    RunKeeps(s, run);
    assert Carries(After(s, run).readers[i]);
  }

  lemma StoppedIsDrained(t: State)
    requires Inv(t) && Stuck(t) && forall i :: 0 <= i < |t.readers| ==> !t.readers[i].Away?
    ensures t.line.ring.Contents() == [] && t.takes == t.puts
    ensures forall p :: 0 <= p < |t.prods| ==> t.prods[p].Idle?
  {
    StuckExactlyWhenAsleep(t);
    assert t.right.Asleep?;
  }

  /** Waking only the first reader is enough: with every reader at work the belt stops only
      when it is empty and every bag that any producer was asked to put has been extracted. */
  lemma StopsOnlyWhenDrained(s: State, run: seq<Label>)
    requires Init(s) && Runs(s, run) && WellFormed(After(s, run)) && Stuck(After(s, run))
    requires forall i :: 0 <= i < |After(s, run).readers| ==> !After(s, run).readers[i].Away?
    ensures var t := After(s, run);
      && t.line.ring.Contents() == [] && t.takes == t.puts
      && (forall p :: 0 <= p < |t.prods| ==> t.prods[p].Idle?)
      && AskedFor(run) == multiset(t.takes)
  {
    InitHolds(s);
    RunKeeps(s, run);
    StoppedIsDrained(After(s, run));
    EveryBagIsPlaced(s, run);
    EmptyHands(After(s, run).prods);
  }
}
