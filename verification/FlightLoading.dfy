/**
 A whole flight on the loading belt: the producers have lists of bags to deliver, the
 desk announces once how many there are, and the loading robot takes bags until it has
 been told the number and has loaded that many.
 */
module FlightLoading {
  import opened Bags
  import opened RingBuffers
  import opened Wakeups
  import opened CheckinBelt
  import opened BeltProtocol
  import opened Sums

  // The robot's variables: `checkin_cerro`, the bags counted by `equipajes_cargados`,
  // `equipajes_por_cargar`, and whether it is about to read the announced number.
  datatype Robot = Robot(knowsClosed: bool, loaded: seq<Bag>, toLoad: int, asking: bool)

  datatype Flight = Flight(s: State, todo: seq<seq<Bag>>, bags: multiset<Bag>, announced: bool, robot: Robot)

  datatype Move = Serve(p: nat) | Fetch | Announce | Inner(l: Label) | Ask

  predicate KeepsLoading(r: Robot) { !r.knowsClosed || |r.loaded| < r.toLoad }

  ghost predicate Can(f: Flight, m: Move)
    requires WellFormed(f.s) && |f.todo| == |f.s.prods|
  {
    match m
    case Serve(p) => p < |f.todo| && f.todo[p] != [] && Enabled(f.s, StartPut(p, f.todo[p][0]))
    case Fetch => f.s.cons.Resting? && !f.robot.asking && KeepsLoading(f.robot)
    case Announce => !f.announced && f.s.holder.Free?
    case Inner(l) => Internal(l) && Enabled(f.s, l)
    case Ask => f.robot.asking && f.s.holder.Free?
  }

  ghost function Next(f: Flight, m: Move): Flight
    requires WellFormed(f.s) && |f.todo| == |f.s.prods| && Can(f, m)
  {
    match m
    case Serve(p) => f.(s := Apply(f.s, StartPut(p, f.todo[p][0])), todo := f.todo[p := f.todo[p][1..]])
    case Fetch => f.(s := Apply(f.s, StartTake))
    case Announce => f.(s := Apply(f.s, CloseEnter(|f.bags|)), announced := true)
    case Inner(l) =>
      var r := f.robot;
      if l.TakeLeave? && f.s.cons.done then
        f.(s := Apply(f.s, l),
           robot := r.(loaded := r.loaded + Real([f.s.cons.bag]), asking := !r.knowsClosed && f.s.noticed))
      else f.(s := Apply(f.s, l))
    case Ask =>
      f.(robot := f.robot.(knowsClosed := true, asking := false, toLoad := TotalRead(f.s.belt, f.s.noticed)))
  }

  ghost function Held(x: Producer): multiset<Bag> {
    match x
    case Idle => multiset{}
    case AtSemaphore(e) => multiset{e}
    case Awake(e) => multiset{e}
    case Inside(e, placed) => if placed then multiset{} else multiset{e}
  }

  // What each producer has yet to place.
  ghost function Owed(f: Flight): (r: seq<multiset<Bag>>)
    requires |f.todo| == |f.s.prods|
    ensures |r| == |f.todo|
  {
    seq(|f.todo|, p requires 0 <= p < |f.todo| => multiset(f.todo[p]) + Held(f.s.prods[p]))
  }

  ghost function Hand(c: Consumer): seq<Bag> {
    if c.Within? && c.done then [c.bag] else []
  }

  // Every bag of the flight has been placed on the belt or is still owed.
  ghost predicate Accounted(f: Flight)
    requires |f.todo| == |f.s.prods|
  {
    multiset(f.s.puts) + Union(Owed(f)) == f.bags
  }

  // What the robot knows and has loaded, against what the belt says.
  ghost predicate RobotKnows(f: Flight) {
    && Real(f.s.takes) == f.robot.loaded + Real(Hand(f.s.cons))
    && (f.announced <==> f.s.belt.closed)
    && (f.announced ==> f.s.belt.total == |f.bags|)
    && (f.robot.knowsClosed ==> f.s.noticed && f.robot.toLoad == |f.bags|)
    && (f.robot.asking ==> f.s.cons.Resting? && f.s.noticed && !f.robot.knowsClosed)
    && (f.s.noticed && !f.robot.knowsClosed && !f.robot.asking ==> f.s.cons.Within? && f.s.cons.done)
    && (!KeepsLoading(f.robot) ==> f.s.cons.Resting?)
  }

  ghost predicate FlightInv(f: Flight) {
    Inv(f.s) && |f.todo| == |f.s.prods| && Accounted(f) && RobotKnows(f)
  }

  ghost predicate FlightStart(f: Flight) {
    && Inv(f.s) && |f.todo| == |f.s.prods|
    && f.s.puts == [] && f.s.takes == []
    && (forall p :: 0 <= p < |f.s.prods| ==> f.s.prods[p].Idle?)
    && f.s.cons.Resting? && !f.s.belt.closed && !f.s.noticed
    && f.bags == Union(Owed(f))
    && !f.announced && f.robot == Robot(false, [], 0, false)
  }

  lemma StartHolds(f: Flight)
    requires FlightStart(f)
    ensures FlightInv(f)
  {
  }

  lemma OwedStays(f: Flight, g: Flight)
    requires |f.todo| == |f.s.prods| == |g.todo| == |g.s.prods|
    requires forall q :: 0 <= q < |f.todo| ==>
      multiset(f.todo[q]) + Held(f.s.prods[q]) == multiset(g.todo[q]) + Held(g.s.prods[q])
    ensures Owed(g) == Owed(f)
  {
    forall q | 0 <= q < |f.todo| ensures Owed(f)[q] == Owed(g)[q] {
    }
  }

  lemma ServeKeepsAccounts(f: Flight, p: nat)
    requires WellFormed(f.s) && |f.todo| == |f.s.prods| && Accounted(f) && Can(f, Serve(p))
    ensures Accounted(Next(f, Serve(p)))
  {
    assert f.todo[p] == [f.todo[p][0]] + f.todo[p][1..];
    OwedStays(f, Next(f, Serve(p)));
  }

  // What a put does besides the belt itself.
  lemma PutEnterMoves(s: State, p: nat)
    requires WellFormed(s) && Enabled(s, PutEnter(p))
    ensures var t := Apply(s, PutEnter(p));
      && t.prods == s.prods[p := Inside(s.prods[p].bag, CanPlace(s.belt))]
      && t.puts == s.puts + if CanPlace(s.belt) then [s.prods[p].bag] else []
  {
  }

  lemma PlacingKeepsAccounts(f: Flight, g: Flight, p: nat, e: Bag)
    requires |f.todo| == |f.s.prods| && Accounted(f) && p < |f.s.prods| && f.s.prods[p] == Awake(e)
    requires g.todo == f.todo && g.bags == f.bags
    requires g.s.prods == f.s.prods[p := Inside(e, true)] && g.s.puts == f.s.puts + [e]
    ensures Accounted(g)
  {
    UnionShrinks(Owed(f), Owed(g), p, multiset{e});
    assert multiset(g.s.puts) == multiset(f.s.puts) + multiset{e};
  }

  lemma ProducerStepKeepsOwed(s: State, l: Label)
    requires WellFormed(s) && Enabled(s, l) && (l.PutWait? || l.PutLeave?)
    ensures var t := Apply(s, l);
      && t.puts == s.puts && t.prods == s.prods[l.p := t.prods[l.p]]
      && Held(t.prods[l.p]) == Held(s.prods[l.p])
  {
  }

  lemma OtherStepKeepsProducers(s: State, l: Label)
    requires WellFormed(s) && Enabled(s, l) && Internal(l) && !l.PutWait? && !l.PutEnter? && !l.PutLeave?
    ensures Apply(s, l).puts == s.puts && Apply(s, l).prods == s.prods
  {
  }

  lemma InnerKeepsOwed(s: State, l: Label)
    requires WellFormed(s) && Enabled(s, l) && Internal(l) && !l.PutEnter?
    ensures var t := Apply(s, l);
      && t.puts == s.puts && |t.prods| == |s.prods|
      && forall q :: 0 <= q < |s.prods| ==> Held(t.prods[q]) == Held(s.prods[q])
  {
    if l.PutWait? || l.PutLeave? {
      ProducerStepKeepsOwed(s, l);
    } else {
      OtherStepKeepsProducers(s, l);
    }
  }

  lemma PutEnterKeepsAccounts(f: Flight, p: nat)
    requires WellFormed(f.s) && |f.todo| == |f.s.prods| && Accounted(f) && Can(f, Inner(PutEnter(p)))
    ensures var g := Next(f, Inner(PutEnter(p))); |g.todo| == |g.s.prods| && Accounted(g)
  {
    var g := Next(f, Inner(PutEnter(p)));
    PutEnterMoves(f.s, p);
    if CanPlace(f.s.belt) {
      PlacingKeepsAccounts(f, g, p, f.s.prods[p].bag);
    } else {
      OwedStays(f, g);
    }
  }

  lemma InnerKeepsAccounts(f: Flight, l: Label)
    requires WellFormed(f.s) && |f.todo| == |f.s.prods| && Accounted(f) && Can(f, Inner(l))
    ensures |Next(f, Inner(l)).todo| == |Next(f, Inner(l)).s.prods| && Accounted(Next(f, Inner(l)))
  {
    if l.PutEnter? {
      PutEnterKeepsAccounts(f, l.p);
    } else {
      InnerKeepsOwed(f.s, l);
      OwedStays(f, Next(f, Inner(l)));
    }
  }

  lemma MoveKeepsAccounts(f: Flight, m: Move)
    requires WellFormed(f.s) && |f.todo| == |f.s.prods| && Accounted(f) && Can(f, m)
    ensures |Next(f, m).todo| == |Next(f, m).s.prods| && Accounted(Next(f, m))
  {
    match m {
      case Serve(p) => ServeKeepsAccounts(f, p);
      case Inner(l) => InnerKeepsAccounts(f, l);
      case _ => OwedStays(f, Next(f, m));
    }
  }

  lemma RealOfMore(bags: seq<Bag>, e: Bag)
    ensures Real(bags + [e]) == Real(bags) + Real([e])
    ensures Real([NO_BAG]) == []
  {
    assert (bags + [e])[..|bags|] == bags;
    assert [e][..0] == [];
  }

  // What the robot takes from the belt in a call: the dummy, the bag at the head, or nothing.
  lemma TakeEnterTakes(s: State)
    requires WellFormed(s) && Enabled(s, TakeEnter)
    ensures var t := Apply(s, TakeEnter);
      && t.cons.Within? && Hand(s.cons) == [] && Real(t.takes) == Real(s.takes) + Real(Hand(t.cons))
      && t.belt.closed == s.belt.closed && t.belt.total == s.belt.total
      && (s.noticed ==> t.noticed) && (t.noticed && !s.noticed ==> t.cons.done)
  {
    RealOfMore(s.takes, Apply(s, TakeEnter).cons.bag);
  }

  lemma TakeEnterKnows(f: Flight)
    requires WellFormed(f.s) && |f.todo| == |f.s.prods| && RobotKnows(f) && Can(f, Inner(TakeEnter))
    requires f.s.noticed ==> f.s.belt.closed
    ensures RobotKnows(Next(f, Inner(TakeEnter)))
  {
    TakeEnterTakes(f.s);
    assert Real([]) == [];
  }

  lemma TakeLeaveKnows(f: Flight)
    requires WellFormed(f.s) && |f.todo| == |f.s.prods| && RobotKnows(f) && Can(f, Inner(TakeLeave))
    requires f.s.noticed ==> f.s.belt.closed
    ensures RobotKnows(Next(f, Inner(TakeLeave)))
  {
  }

  // The steps of the producers leave the robot's side of the belt alone.
  lemma ProducersDoNotDisturb(s: State, l: Label)
    requires WellFormed(s) && Enabled(s, l)
    requires l.StartPut? || l.PutWait? || l.PutEnter? || l.PutLeave? || l.Emit? || l.CloseLeave? || l.TakeWait?
    ensures var t := Apply(s, l);
      && t.takes == s.takes && t.noticed == s.noticed
      && t.belt.closed == s.belt.closed && t.belt.total == s.belt.total
      && (t.cons == s.cons || (s.cons.Waiting? && t.cons.Roused?))
  {
  }

  lemma MoveKeepsKnowledge(f: Flight, m: Move)
    requires WellFormed(f.s) && |f.todo| == |f.s.prods| && RobotKnows(f) && Can(f, m)
    requires f.s.noticed ==> f.s.belt.closed
    ensures RobotKnows(Next(f, m))
  {
    match m {
      case Inner(l) =>
        if l == TakeEnter {
          TakeEnterKnows(f);
        } else if l == TakeLeave {
          TakeLeaveKnows(f);
        } else {
          ProducersDoNotDisturb(f.s, l);
        }
      case Serve(p) => ProducersDoNotDisturb(f.s, StartPut(p, f.todo[p][0]));
      case _ =>
    }
  }

  lemma MoveKeeps(f: Flight, m: Move)
    requires FlightInv(f) && Can(f, m)
    ensures FlightInv(Next(f, m))
  {
    MoveKeepsAccounts(f, m);
    MoveKeepsKnowledge(f, m);
    match m {
      case Serve(p) => StepKeeps(f.s, StartPut(p, f.todo[p][0]));
      case Fetch => StepKeeps(f.s, StartTake);
      case Announce => StepKeeps(f.s, CloseEnter(|f.bags|));
      case Inner(l) => StepKeeps(f.s, l);
      case Ask =>
    }
  }

  // ---------------------------------------------------------------- leaving the loop

  lemma {:induction false} RealShrinks(xs: seq<Bag>)
    ensures |Real(xs)| <= |xs|
    ensures |Real(xs)| == |xs| ==> forall k :: 0 <= k < |xs| ==> xs[k].rfid != 0
  {
    if xs != [] {
      RealShrinks(xs[..|xs| - 1]);
    }
  }

  lemma {:induction false} RealKeeps(xs: seq<Bag>)
    requires forall k :: 0 <= k < |xs| ==> xs[k].rfid != 0
    ensures Real(xs) == xs
  {
    if xs != [] {
      RealKeeps(xs[..|xs| - 1]);
      assert xs == xs[..|xs| - 1] + [xs[|xs| - 1]];
    }
  }

  lemma RealLength(xs: seq<Bag>)
    ensures |Real(xs)| <= |xs|
    ensures |Real(xs)| == |xs| <==> (forall e :: e in xs ==> e.rfid != 0)
    ensures |Real(xs)| == |xs| ==> Real(xs) == xs
  {
    RealShrinks(xs);
    if |Real(xs)| == |xs| || (forall e :: e in xs ==> e.rfid != 0) {
      RealKeeps(xs);
    }
  }

  lemma PartsOf<T>(a: multiset<T>, b: multiset<T>, c: multiset<T>)
    requires a + b == c
    ensures |a| + |b| == |c| && (|a| == |c| ==> b == multiset{})
  {
  }

  // The robot cannot have loaded more than was taken, taken more than was placed, or
  // placed more than the flight has.
  lemma LoadedAtMost(f: Flight)
    requires FlightInv(f) && f.s.cons.Resting?
    ensures |f.robot.loaded| <= |f.s.takes| <= |f.s.puts| <= |f.bags|
    ensures f.robot.loaded == Real(f.s.takes)
  {
    RealLength(f.s.takes);
    PartsOf(multiset(f.s.puts), Union(Owed(f)), f.bags);
    assert |multiset(f.s.puts)| == |f.s.puts|;
  }

  /** When the robot leaves its loop it has loaded exactly the bags of the flight, once
      each and in the order they were placed, and the belt is empty. */
  lemma LeavesWithEveryBag(f: Flight)
    requires FlightInv(f) && !KeepsLoading(f.robot)
    ensures f.robot.loaded == f.s.puts && multiset(f.robot.loaded) == f.bags
    ensures f.s.belt.ring.Contents() == [] && Union(Owed(f)) == multiset{}
    ensures forall e :: e in f.bags ==> e.rfid != 0
  {
    LoadedAtMost(f);
    RealLength(f.s.takes);
    assert f.s.puts == f.s.takes;
    PartsOf(multiset(f.s.puts), Union(Owed(f)), f.bags);
    forall e | e in f.bags ensures e.rfid != 0 {
      assert e in multiset(f.s.takes);
    }
  }

  ghost predicate Ended(f: Flight) {
    WellFormed(f.s) && |f.todo| == |f.s.prods| && forall m :: !Can(f, m)
  }

  lemma EndedMeansStuck(f: Flight)
    requires WellFormed(f.s) && Ended(f)
    ensures Stuck(f.s)
  {
    forall l | Internal(l) ensures !Enabled(f.s, l) {
      assert !Can(f, Inner(l));
    }
  }

  lemma EndedMeansAtRest(f: Flight)
    requires FlightInv(f) && Ended(f)
    ensures AllRestOrSleep(f.s) && f.announced && !f.robot.asking
    ensures f.s.cons.Resting? ==> !KeepsLoading(f.robot)
    ensures forall p :: 0 <= p < |f.todo| && f.s.prods[p].Idle? ==> f.todo[p] == []
  {
    EndedMeansStuck(f);
    StuckExactlyWhenAsleep(f.s);
    assert !Can(f, Announce) && !Can(f, Ask) && !Can(f, Fetch);
    forall p | 0 <= p < |f.todo| && f.s.prods[p].Idle? ensures f.todo[p] == [] {
      assert !Can(f, Serve(p));
    }
  }

  lemma NothingOwed(f: Flight)
    requires |f.todo| == |f.s.prods|
    ensures Union(Owed(f)) == multiset{} <==>
      forall p :: 0 <= p < |f.todo| ==> f.todo[p] == [] && Held(f.s.prods[p]) == multiset{}
  {
    UnionEmpty(Owed(f));
    if Union(Owed(f)) == multiset{} {
      forall p | 0 <= p < |f.todo| ensures f.todo[p] == [] && Held(f.s.prods[p]) == multiset{} {
        assert Owed(f)[p] == multiset{};
        assert |Owed(f)[p]| == |f.todo[p]| + |Held(f.s.prods[p])|;
      }
    }
  }

  /** How every flight ends: all bags were placed and taken and every producer is done; and
      the robot left its loop if and only if no bag carried the dummy's identifier 0. */
  lemma FlightEnds(f: Flight)
    requires FlightInv(f) && Ended(f)
    ensures multiset(f.s.takes) == f.bags && f.s.belt.ring.Contents() == []
    ensures forall p :: 0 <= p < |f.todo| ==> f.todo[p] == [] && f.s.prods[p].Idle?
    ensures !KeepsLoading(f.robot) <==> (forall e :: e in f.bags ==> e.rfid != 0)
  {
    EndedMeansAtRest(f);
    NothingOwed(f);
    if f.s.cons.Resting? {
      LeavesWithEveryBag(f);
    } else {
      assert f.s.puts == f.s.takes;
      assert f.robot.knowsClosed && f.robot.loaded == Real(f.s.takes);
      RealLength(f.s.takes);
      assert |multiset(f.s.takes)| == |f.s.takes|;
    }
  }

  // ---------------------------------------------------------------- termination

  // What is left to happen for the first time: bags to place and to take, the
  // announcement, and the robot noticing it.
  ghost function Ahead(f: Flight): nat
    requires |f.todo| == |f.s.prods|
  {
    2 * |Union(Owed(f))| + f.s.belt.ring.count + One(!f.announced) + One(!f.s.noticed)
  }

  function ProducerRank(x: Producer): nat {
    match x
    case Idle => 0
    case AtSemaphore(_) => 3
    case Awake(_) => 2
    case Inside(_, placed) => if placed then 1 else 4
  }

  function ConsumerRank(x: Consumer, asking: bool): nat {
    match x
    case Resting => if asking then 6 else 5
    case Waiting => 3
    case Roused => 2
    case Within(done, _) => if done then 7 else 4
  }

  ghost function ProducerWork(f: Flight, p: nat): nat
    requires WellFormed(f.s) && |f.todo| == |f.s.prods| && p < |f.todo|
  {
    10 * |f.todo[p]| + (if f.s.belt.prodAsleep[p] then 0 else 8) + ProducerRank(f.s.prods[p])
  }

  ghost function Works(f: Flight): (r: seq<nat>)
    requires WellFormed(f.s) && |f.todo| == |f.s.prods|
    ensures |r| == |f.todo|
  {
    seq(|f.todo|, p requires 0 <= p < |f.todo| => ProducerWork(f, p))
  }

  // The work of the processes between two such events.
  ghost function Work(f: Flight): nat
    requires WellFormed(f.s) && |f.todo| == |f.s.prods|
  {
    |f.s.pending| + Sum(Works(f)) + (if f.s.belt.consAsleep[f.s.me] then 0 else 8)
    + ConsumerRank(f.s.cons, f.robot.asking) + One(f.s.holder.HeldByDesk?)
  }

  lemma WorkShifts(f: Flight, g: Flight, p: nat)
    requires WellFormed(f.s) && |f.todo| == |f.s.prods| && WellFormed(g.s) && |g.todo| == |g.s.prods|
    requires p < |f.todo| == |g.todo|
    requires forall q :: 0 <= q < |f.todo| && q != p ==>
      f.todo[q] == g.todo[q] && f.s.prods[q] == g.s.prods[q] && f.s.belt.prodAsleep[q] == g.s.belt.prodAsleep[q]
    ensures Sum(Works(g)) + ProducerWork(f, p) == Sum(Works(f)) + ProducerWork(g, p)
  {
    SumChangesAt(Works(f), Works(g), p);
  }

  // A put or a take that changes nothing but puts its process to sleep.
  lemma FailedEntry(s: State)
    requires Inv(s)
    ensures forall p :: 0 <= p < |s.prods| && Enabled(s, PutEnter(p)) && !CanPlace(s.belt) ==>
      var t := Apply(s, PutEnter(p));
      && !s.belt.prodAsleep[p] && t.belt.ring == s.belt.ring && t.pending == []
      && t.belt.prodAsleep == s.belt.prodAsleep[p := true] && t.belt.consAsleep == s.belt.consAsleep
    ensures Enabled(s, TakeEnter) && Ordinary(s.belt, s.noticed) && s.belt.ring.count == 0 ==>
      var t := Apply(s, TakeEnter);
      && !s.belt.consAsleep[s.me] && t.belt.ring == s.belt.ring && t.pending == []
      && t.belt.consAsleep == s.belt.consAsleep[s.me := true] && t.belt.prodAsleep == s.belt.prodAsleep
      && t.cons == Within(false, NO_BAG)
  {
    forall p | 0 <= p < |s.prods| && s.prods[p].Awake? ensures !s.belt.prodAsleep[p] {
      assert ProducerPermits(s, p) == 1;
    }
  }

  ghost predicate Smaller(g: Flight, f: Flight)
    requires WellFormed(f.s) && |f.todo| == |f.s.prods| && WellFormed(g.s) && |g.todo| == |g.s.prods|
  {
    Ahead(g) < Ahead(f) || (Ahead(g) == Ahead(f) && Work(g) < Work(f))
  }

  lemma PlacedShrinks(f: Flight, g: Flight, p: nat, e: Bag)
    requires |f.todo| == |f.s.prods| && p < |f.s.prods| && f.s.prods[p] == Awake(e)
    requires g.todo == f.todo && g.s.prods == f.s.prods[p := Inside(e, true)]
    requires g.s.belt.ring.count == f.s.belt.ring.count + 1
    requires g.announced == f.announced && g.s.noticed == f.s.noticed
    ensures Ahead(g) < Ahead(f)
  {
    UnionShrinks(Owed(f), Owed(g), p, multiset{e});
  }

  lemma RefusedShrinks(f: Flight, g: Flight, p: nat)
    requires WellFormed(f.s) && |f.todo| == |f.s.prods| && WellFormed(g.s)
    requires p < |f.s.prods| && f.s.prods[p].Awake? && !f.s.belt.prodAsleep[p]
    requires g.todo == f.todo && g.s.prods == f.s.prods[p := Inside(f.s.prods[p].bag, false)]
    requires g.s.belt.prodAsleep == f.s.belt.prodAsleep[p := true] && g.s.belt.consAsleep == f.s.belt.consAsleep
    requires g.s.belt.ring == f.s.belt.ring && g.s.me == f.s.me && g.s.cons == f.s.cons && g.robot == f.robot
    requires g.announced == f.announced && g.s.noticed == f.s.noticed && g.s.holder == HeldByProducer(p)
    requires g.s.pending == []
    ensures Smaller(g, f)
  {
    OwedStays(f, g);
    WorkShifts(f, g, p);
  }

  // The parts of a belt that a successful entry does not leave as they were.
  lemma PutEnterRest(s: State, p: nat)
    requires Inv(s) && Enabled(s, PutEnter(p))
    ensures var t := Apply(s, PutEnter(p));
      && WellFormed(t) && t.me == s.me && t.cons == s.cons && t.noticed == s.noticed && t.holder == HeldByProducer(p)
      && (CanPlace(s.belt) ==> t.belt.ring.count == s.belt.ring.count + 1)
  {
    PutEnterKeeps(s, p);
    if CanPlace(s.belt) {
      PlacedWakes(s.belt, s.prods[p].bag, s.me, s.noticed);
    }
  }

  lemma PutEnterShrinks(f: Flight, p: nat)
    requires Inv(f.s) && |f.todo| == |f.s.prods| && Can(f, Inner(PutEnter(p)))
    ensures var g := Next(f, Inner(PutEnter(p)));
      WellFormed(g.s) && |g.todo| == |g.s.prods| && Smaller(g, f)
  {
    var g := Next(f, Inner(PutEnter(p)));
    PutEnterMoves(f.s, p);
    PutEnterRest(f.s, p);
    if CanPlace(f.s.belt) {
      PlacedShrinks(f, g, p, f.s.prods[p].bag);
    } else {
      FailedEntry(f.s);
      RefusedShrinks(f, g, p);
    }
  }

  lemma EmptyHandedShrinks(f: Flight, g: Flight)
    requires WellFormed(f.s) && |f.todo| == |f.s.prods| && WellFormed(g.s)
    requires g.todo == f.todo && g.s.prods == f.s.prods
    requires g.s.belt.prodAsleep == f.s.belt.prodAsleep && g.s.belt.ring == f.s.belt.ring
    requires !f.s.belt.consAsleep[f.s.me] && g.s.belt.consAsleep == f.s.belt.consAsleep[f.s.me := true]
    requires f.s.cons.Roused? && g.s.cons == BeltProtocol.Within(false, NO_BAG)
    requires g.s.me == f.s.me && g.robot == f.robot && g.announced == f.announced && g.s.noticed == f.s.noticed
    requires g.s.pending == [] && g.s.holder == HeldByConsumer
    ensures Smaller(g, f)
  {
    OwedStays(f, g);
    assert Works(g) == Works(f);
  }

  lemma TakeEnterRest(s: State)
    requires Inv(s) && Enabled(s, TakeEnter)
    ensures var t := Apply(s, TakeEnter);
      && WellFormed(t) && t.me == s.me && t.prods == s.prods && t.holder == HeldByConsumer
      && (Ordinary(s.belt, s.noticed) ==> t.noticed == s.noticed)
      && (!Ordinary(s.belt, s.noticed) ==> !s.noticed && t.noticed && t.belt == s.belt)
      && (Ordinary(s.belt, s.noticed) && s.belt.ring.count > 0 ==> t.belt.ring.count == s.belt.ring.count - 1)
  {
    TakeEnterKeeps(s);
  }

  lemma TakeEnterShrinks(f: Flight)
    requires Inv(f.s) && |f.todo| == |f.s.prods| && Can(f, Inner(TakeEnter))
    ensures var g := Next(f, Inner(TakeEnter));
      WellFormed(g.s) && |g.todo| == |g.s.prods| && Smaller(g, f)
  {
    var g := Next(f, Inner(TakeEnter));
    TakeEnterRest(f.s);
    OwedStays(f, g);
    if Ordinary(f.s.belt, f.s.noticed) && f.s.belt.ring.count == 0 {
      FailedEntry(f.s);
      EmptyHandedShrinks(f, g);
    }
  }

  // A move that touches neither the producers nor the belt's flags and bags.
  lemma OnlyRanksMove(f: Flight, g: Flight)
    requires WellFormed(f.s) && |f.todo| == |f.s.prods|
    requires g.todo == f.todo && g.s.prods == f.s.prods && g.s.belt == f.s.belt && g.s.me == f.s.me
    requires |g.s.prodSem| == |f.s.prodSem| && g.announced == f.announced && g.s.noticed == f.s.noticed
    requires |g.s.pending| + ConsumerRank(g.s.cons, g.robot.asking) + One(g.s.holder.HeldByDesk?)
      < |f.s.pending| + ConsumerRank(f.s.cons, f.robot.asking) + One(f.s.holder.HeldByDesk?)
    ensures WellFormed(g.s) && |g.todo| == |g.s.prods| && Smaller(g, f)
  {
    OwedStays(f, g);
    assert Works(g) == Works(f);
  }

  // A move in which producer p only changes its own place in the code.
  lemma OnlyOneProducerMoves(f: Flight, g: Flight, p: nat)
    requires WellFormed(f.s) && |f.todo| == |f.s.prods| && p < |f.s.prods|
    requires g.s.belt == f.s.belt && g.s.me == f.s.me && g.s.cons == f.s.cons && g.robot == f.robot
    requires |g.s.prodSem| == |f.s.prodSem| && g.announced == f.announced && g.s.noticed == f.s.noticed
    requires g.s.pending == f.s.pending && (g.s.holder.HeldByDesk? ==> f.s.holder.HeldByDesk?)
    requires |g.todo| == |f.todo| && |g.s.prods| == |f.s.prods|
    requires forall q :: 0 <= q < |f.todo| && q != p ==> g.todo[q] == f.todo[q] && g.s.prods[q] == f.s.prods[q]
    requires multiset(f.todo[p]) + Held(f.s.prods[p]) == multiset(g.todo[p]) + Held(g.s.prods[p])
    requires 10 * |g.todo[p]| + ProducerRank(g.s.prods[p]) < 10 * |f.todo[p]| + ProducerRank(f.s.prods[p])
    ensures WellFormed(g.s) && |g.todo| == |g.s.prods| && Smaller(g, f)
  {
    OwedStays(f, g);
    WorkShifts(f, g, p);
  }

  lemma ProducerStepShrinks(f: Flight, l: Label)
    requires WellFormed(f.s) && |f.todo| == |f.s.prods| && Can(f, Inner(l)) && (l.PutWait? || l.PutLeave?)
    ensures var g := Next(f, Inner(l));
      WellFormed(g.s) && |g.todo| == |g.s.prods| && Smaller(g, f)
  {
    OnlyOneProducerMoves(f, Next(f, Inner(l)), l.p);
  }

  lemma OtherStepShrinks(f: Flight, l: Label)
    requires WellFormed(f.s) && |f.todo| == |f.s.prods| && Can(f, Inner(l))
    requires l.Emit? || l.TakeWait? || l.TakeLeave? || l.CloseLeave?
    ensures var g := Next(f, Inner(l));
      WellFormed(g.s) && |g.todo| == |g.s.prods| && Smaller(g, f)
  {
    OnlyRanksMove(f, Next(f, Inner(l)));
  }

  lemma RequestShrinks(f: Flight, m: Move)
    requires WellFormed(f.s) && |f.todo| == |f.s.prods| && Can(f, m) && (m.Serve? || m.Fetch? || m.Ask?)
    requires m.Ask? ==> f.s.cons.Resting?
    ensures var g := Next(f, m);
      WellFormed(g.s) && |g.todo| == |g.s.prods| && Smaller(g, f)
  {
    var g := Next(f, m);
    if m.Serve? {
      assert f.todo[m.p] == [f.todo[m.p][0]] + f.todo[m.p][1..];
      OnlyOneProducerMoves(f, g, m.p);
    } else {
      OnlyRanksMove(f, g);
    }
  }

  lemma AnnounceShrinks(f: Flight)
    requires Inv(f.s) && |f.todo| == |f.s.prods| && Can(f, Announce)
    ensures var g := Next(f, Announce);
      WellFormed(g.s) && |g.todo| == |g.s.prods| && Smaller(g, f)
  {
    CloseEnterKeeps(f.s, |f.bags|);
    OwedStays(f, Next(f, Announce));
  }

  /** Every move brings the flight closer to its end, so no run is infinite. */
  lemma MoveShrinks(f: Flight, m: Move)
    requires FlightInv(f) && Can(f, m)
    ensures var g := Next(f, m);
      WellFormed(g.s) && |g.todo| == |g.s.prods| && Smaller(g, f)
  {
    match m {
      case Inner(l) =>
        if l.PutEnter? {
          PutEnterShrinks(f, l.p);
        } else if l.TakeEnter? {
          TakeEnterShrinks(f);
        } else if l.PutWait? || l.PutLeave? {
          ProducerStepShrinks(f, l);
        } else {
          OtherStepShrinks(f, l);
        }
      case Announce => AnnounceShrinks(f);
      case _ => RequestShrinks(f, m);
    }
  }

  // ---------------------------------------------------------------- whole runs

  ghost predicate Plays(f: Flight, run: seq<Move>)
    decreases |run|
  {
    run == [] ||
    (WellFormed(f.s) && |f.todo| == |f.s.prods| && Can(f, run[0]) && Plays(Next(f, run[0]), run[1..]))
  }

  ghost function Final(f: Flight, run: seq<Move>): Flight
    requires Plays(f, run)
    decreases |run|
  {
    if run == [] then f else Final(Next(f, run[0]), run[1..])
  }

  // The flight after one move, with what it keeps.
  ghost function AfterMove(f: Flight, m: Move): (g: Flight)
    requires FlightInv(f) && Can(f, m)
    ensures FlightInv(g) && g.bags == f.bags && g == Next(f, m)
  {
    MoveKeeps(f, m);
    Next(f, m)
  }

  lemma {:induction false} PlayKeeps(f: Flight, run: seq<Move>)
    requires FlightInv(f) && Plays(f, run)
    ensures FlightInv(Final(f, run)) && Final(f, run).bags == f.bags
    decreases |run|
  {
    if run != [] {
      var g := AfterMove(f, run[0]);
      PlayKeeps(g, run[1..]);
    }
  }

  /** From any state of a flight, whatever has happened so far, some way of going on
      reaches the end; with `MoveShrinks`, every way of going on does. */
  lemma {:induction false} CanFinish(f: Flight) returns (run: seq<Move>)
    requires FlightInv(f)
    ensures Plays(f, run) && FlightInv(Final(f, run)) && Ended(Final(f, run))
    decreases Ahead(f), Work(f)
  {
    if Ended(f) {
      run := [];
    } else {
      var m :| Can(f, m);
      MoveKeeps(f, m);
      MoveShrinks(f, m);
      var rest := CanFinish(Next(f, m));
      run := [m] + rest;
    }
  }

  /** A flight, whatever the interleaving: if its run cannot be continued and no bag carries
      identifier 0, the robot has left its loop with exactly the flight's bags. */
  lemma FlightLoadsExactlyItsBags(f: Flight, run: seq<Move>)
    requires FlightStart(f) && Plays(f, run) && Ended(Final(f, run))
    requires forall e :: e in f.bags ==> e.rfid != 0
    ensures var g := Final(f, run);
      !KeepsLoading(g.robot) && multiset(g.robot.loaded) == f.bags && g.s.belt.ring.Contents() == []
  {
    StartHolds(f);
    PlayKeeps(f, run);
    FlightEnds(Final(f, run));
    LeavesWithEveryBag(Final(f, run));
  }

  /** After the robot has left its loop and reset the belt, the next flight can start. */
  lemma NextFlightStarts(f: Flight, g: Flight)
    requires FlightInv(f) && !KeepsLoading(f.robot) && Enabled(f.s, Reset)
    requires g.s == Apply(f.s, Reset).(puts := [], takes := [])
    requires |g.todo| == |g.s.prods| && g.bags == Union(Owed(g))
    requires !g.announced && g.robot == Robot(false, [], 0, false)
    ensures FlightStart(g)
  {
    StepKeeps(f.s, Reset);
    LeavesWithEveryBag(f);
    NothingOwed(f);
    forall p | 0 <= p < |f.s.prods| ensures f.s.prods[p].Idle? {
      assert Held(f.s.prods[p]) == multiset{};
    }
    EmptyBeltForgets(Apply(f.s, Reset));
  }
}
