/**
 The scanner belts as interleaved processes: the producer, any number of scanners, one lock
 per belt and the control lock, which is taken inside a belt's lock and never the other way
 round. Every lock operation and every semaphore operation is a step of its own.

 `permit` follows the producer's single permission to look for a belt. It takes no part in
 deciding what may happen.
 */
module ScannerProtocol {
  import opened Bags
  import opened RingBuffers
  import opened Wakeups
  import opened ScannerBelts

  datatype Producer =
    | Idle | AtSemaphore(bag: Bag)
    | Awake(bag: Bag)                    // about to take the control lock
    | Searched(bag: Bag, found: bool)    // holds it, has looked for a belt
    | Chosen(bag: Bag)                   // about to take the lock of belt `next`
    | Placed(wake: bool)                 // holds it, has stored the bag
    | Marking                            // and, the belt being full, waits for the control lock
    | Marked                             // holds both
    | Leaving                            // holds the belt's lock only
    | Returning                          // holds none, has yet to raise its own semaphore

  datatype Stage = NeedsControl | InControl(wake: bool) | Settling | Keeping | Finished

  datatype Scanner =
    | Off | Joining | Joined(wake: bool) | Announcing
    | Resting | Waiting | Roused
    | Inside(done: bool, bag: Bag, stage: Stage)

  datatype Control = ControlFree | ControlProducer | ControlScanner(c: nat)

  datatype BeltLock = Open | ByProducer | ByScanner

  datatype Permit = OnSemaphore | WithProducer | Napping | WithScanner(c: nat)

  datatype State = State(
    m: Memory, control: Control, locks: seq<BeltLock>,
    sem0: nat, sem: seq<nat>, prod: Producer, cons: seq<Scanner>,
    permit: Permit, puts: seq<seq<Bag>>, takes: seq<seq<Bag>>)

  datatype Label =
    | StartPut(e: Bag) | PutWait | SearchEnter | SearchLeave
    | PlaceEnter | PlaceWake | PlaceDone | MarkEnter | MarkLeave | PlaceLeave | PutReturn
    | StartJoin(c: nat) | JoinEnter(c: nat) | JoinLeave(c: nat) | JoinWake(c: nat)
    | StartTake(c: nat) | TakeWait(c: nat) | TakeEnter(c: nat)
    | OpenEnter(c: nat) | OpenWake(c: nat) | OpenLeave(c: nat)
    | Settle(c: nat) | Keep(c: nat) | TakeLeave(c: nat)

  ghost predicate WellFormed(s: State) {
    && Valid(s.m)
    && |s.m.belts| == |s.locks| == |s.sem| == |s.cons| == |s.puts| == |s.takes|
  }

  ghost predicate In(s: State, c: nat, stage: Stage) {
    c < |s.cons| && s.cons[c].Inside? && s.cons[c].stage == stage
  }

  ghost predicate Enabled(s: State, l: Label)
    requires WellFormed(s)
  {
    match l
    case StartPut(e) => s.prod.Idle?
    case PutWait => s.prod.AtSemaphore? && s.sem0 > 0
    case SearchEnter => s.prod.Awake? && s.control.ControlFree?
    case SearchLeave => s.prod.Searched?
    case PlaceEnter => s.prod.Chosen? && s.locks[s.m.next].Open?
    case PlaceWake => s.prod == Placed(true)
    case PlaceDone => s.prod == Placed(false)
    case MarkEnter => s.prod.Marking? && s.control.ControlFree?
    case MarkLeave => s.prod.Marked?
    case PlaceLeave => s.prod.Leaving?
    case PutReturn => s.prod.Returning?
    case StartJoin(c) => c < |s.cons| && s.cons[c].Off?
    case JoinEnter(c) => c < |s.cons| && s.cons[c].Joining? && s.control.ControlFree?
    case JoinLeave(c) => c < |s.cons| && s.cons[c].Joined?
    case JoinWake(c) => c < |s.cons| && s.cons[c].Announcing?
    case StartTake(c) => c < |s.cons| && s.cons[c].Resting?
    case TakeWait(c) => c < |s.cons| && s.cons[c].Waiting? && s.sem[c] > 0
    case TakeEnter(c) => c < |s.cons| && s.cons[c].Roused? && s.locks[c].Open?
    case OpenEnter(c) => In(s, c, NeedsControl) && s.control.ControlFree?
    case OpenWake(c) => In(s, c, InControl(true))
    case OpenLeave(c) => In(s, c, InControl(false))
    case Settle(c) => In(s, c, Settling)
    case Keep(c) => In(s, c, Keeping)
    case TakeLeave(c) => In(s, c, Finished)
  }

  ghost function At(s: State, c: nat, stage: Stage): State
    requires c < |s.cons| && s.cons[c].Inside?
  {
    s.(cons := s.cons[c := s.cons[c].(stage := stage)])
  }

  // The producer's steps.
  ghost function ApplyPut(s: State, l: Label): State
    requires WellFormed(s) && Enabled(s, l)
    requires l.StartPut? || l.PutWait? || l.SearchEnter? || l.SearchLeave? || l.PlaceEnter? || l.PlaceWake?
      || l.PlaceDone? || l.MarkEnter? || l.MarkLeave? || l.PlaceLeave? || l.PutReturn?
  {
    var n := s.m.next;
    match l
    case StartPut(e) => s.(prod := AtSemaphore(e))
    case PutWait => s.(sem0 := s.sem0 - 1, prod := Awake(s.prod.bag), permit := WithProducer)
    case SearchEnter =>
      s.(m := ChooseLocked(s.m), control := ControlProducer, prod := Searched(s.prod.bag, Chose(s.m)),
         permit := if Chose(s.m) then s.permit else Napping)
    case SearchLeave =>
      s.(control := ControlFree,
         prod := if s.prod.found then Chosen(s.prod.bag) else AtSemaphore(s.prod.bag))
    case PlaceEnter =>
      s.(m := PlaceLocked(s.m, s.prod.bag), locks := s.locks[n := ByProducer], prod := Placed(MustWake(s.m)),
         puts := s.puts[n := s.puts[n] + [s.prod.bag]])
    case PlaceWake => s.(sem := s.sem[n := s.sem[n] + 1], prod := Placed(false))
    case PlaceDone => s.(prod := if IsFull(s.m.belts[n]) then Marking else Leaving)
    case MarkEnter => s.(m := MarkFullLocked(s.m), control := ControlProducer, prod := Marked)
    case MarkLeave => s.(control := ControlFree, prod := Leaving)
    case PlaceLeave =>
      s.(m := s.m.(next := Around(n + 1, |s.m.belts|)), locks := s.locks[n := Open], prod := Returning)
    case PutReturn => s.(sem0 := s.sem0 + 1, prod := Idle, permit := OnSemaphore)
  }

  ghost predicate ScannerLabel(l: Label) {
    l.StartJoin? || l.JoinEnter? || l.JoinLeave? || l.JoinWake? || l.StartTake? || l.TakeWait? || l.TakeEnter?
    || l.OpenEnter? || l.OpenWake? || l.OpenLeave? || l.Settle? || l.Keep? || l.TakeLeave?
  }

  // The steps of a scanner.
  ghost function ApplyTake(s: State, l: Label): State
    requires WellFormed(s) && Enabled(s, l) && ScannerLabel(l)
  {
    match l
    case StartJoin(c) => s.(cons := s.cons[c := Joining])
    case JoinEnter(c) =>
      s.(m := ActivateLocked(s.m, c), control := ControlScanner(c),
         cons := s.cons[c := Joined(s.m.producerNapping)],
         permit := if s.m.producerNapping then WithScanner(c) else s.permit)
    case JoinLeave(c) =>
      s.(control := ControlFree, cons := s.cons[c := if s.cons[c].wake then Announcing else Resting])
    case JoinWake(c) => s.(sem0 := s.sem0 + 1, cons := s.cons[c := Resting], permit := OnSemaphore)
    case StartTake(c) => s.(cons := s.cons[c := Waiting])
    case TakeWait(c) => s.(sem := s.sem[c := s.sem[c] - 1], cons := s.cons[c := Roused])
    case TakeEnter(c) =>
      var b := s.m.belts[c];
      var e := if b.count > 0 then b.slots[b.busy] else NO_BAG;
      s.(m := TakeLocked(s.m, c), locks := s.locks[c := ByScanner],
         cons := s.cons[c := Inside(b.count > 0, e, if IsFull(b) then NeedsControl else Settling)],
         takes := if b.count > 0 then s.takes[c := s.takes[c] + [e]] else s.takes)
    case OpenEnter(c) =>
      var wake := s.m.marks[c] == Full && s.m.producerNapping;
      At(s, c, InControl(wake)).(m := MarkOpenLocked(s.m, c), control := ControlScanner(c),
        permit := if wake then WithScanner(c) else s.permit)
    case OpenWake(c) => At(s, c, InControl(false)).(sem0 := s.sem0 + 1, permit := OnSemaphore)
    case OpenLeave(c) => At(s, c, Settling).(control := ControlFree)
    case Settle(c) =>
      At(s, c, if s.m.belts[c].count > 0 then Keeping else Finished).(m := SettleLocked(s.m, c))
    case Keep(c) => At(s, c, Finished).(sem := s.sem[c := s.sem[c] + 1])
    case TakeLeave(c) =>
      s.(locks := s.locks[c := Open], cons := s.cons[c := if s.cons[c].done then Resting else Waiting])
  }

  ghost function Apply(s: State, l: Label): State
    requires WellFormed(s) && Enabled(s, l)
  {
    if ScannerLabel(l) then ApplyTake(s, l) else ApplyPut(s, l)
  }

  ghost predicate Runs(s: State, run: seq<Label>)
    decreases |run|
  {
    run == [] || (WellFormed(s) && Enabled(s, run[0]) && Runs(Apply(s, run[0]), run[1..]))
  }

  ghost function After(s: State, run: seq<Label>): State
    requires Runs(s, run)
    decreases |run|
  {
    if run == [] then s else After(Apply(s, run[0]), run[1..])
  }

  // ---------------------------------------------------------------- the invariant

  predicate InBelt(p: Producer) { p.Placed? || p.Marking? || p.Marked? || p.Leaving? }

  ghost predicate Locks(s: State)
    requires WellFormed(s)
  {
    && (s.control.ControlProducer? <==> s.prod.Searched? || s.prod.Marked?)
    && (s.control.ControlScanner? ==> s.control.c < |s.cons|)
    && (forall c :: 0 <= c < |s.cons| ==>
      && (s.locks[c].ByProducer? <==> InBelt(s.prod) && s.m.next == c)
      && (s.locks[c].ByScanner? <==> s.cons[c].Inside?)
      && (s.control == ControlScanner(c) <==>
            s.cons[c].Joined? || (s.cons[c].Inside? && s.cons[c].stage.InControl?)))
  }

  // The producer has its permission in hand.
  predicate Active(p: Producer) {
    p.Awake? || (p.Searched? && p.found) || p.Chosen? || InBelt(p) || p.Returning?
  }

  // The scanner is about to raise the producer's semaphore.
  predicate Raises(x: Scanner) {
    (x.Joined? && x.wake) || x.Announcing? || (x.Inside? && x.stage == InControl(true))
  }

  ghost predicate OnePermit(s: State)
    requires WellFormed(s)
  {
    && s.sem0 == One(s.permit.OnSemaphore?)
    && (Active(s.prod) <==> s.permit.WithProducer?)
    && (s.m.producerNapping <==> s.permit.Napping?)
    && (forall c :: 0 <= c < |s.cons| ==> (Raises(s.cons[c]) <==> s.permit == WithScanner(c)))
    && (s.permit.WithScanner? ==> s.permit.c < |s.cons|)
    && (s.prod.Searched? && !s.prod.found ==> s.permit.Napping?)
  }

  // The scanner has its turn in hand.
  predicate HasTurn(x: Scanner) { x.Roused? || (x.Inside? && !x.stage.Finished?) }

  ghost function Turns(s: State, c: nat): nat
    requires WellFormed(s) && c < |s.cons|
  {
    s.sem[c] + One(HasTurn(s.cons[c])) + One(s.m.napping[c]) + One(s.prod == Placed(true) && s.m.next == c)
  }

  ghost predicate OneTurnEach(s: State)
    requires WellFormed(s)
  {
    forall c :: 0 <= c < |s.cons| ==> Turns(s, c) == 1 && (s.m.napping[c] ==> s.m.belts[c].count == 0)
  }

  // What the mark of belt c says, also while its lock is held.
  ghost predicate MarkMeans(s: State, c: nat)
    requires WellFormed(s) && c < |s.cons|
  {
    && (s.m.marks[c] == Unused <==> s.cons[c].Off? || s.cons[c].Joining?)
    && (s.m.marks[c] == Unused ==> !IsFull(s.m.belts[c]))
    && (s.m.marks[c] == HasSpace && !((s.prod.Placed? || s.prod.Marking?) && s.m.next == c) ==> !IsFull(s.m.belts[c]))
    && (s.m.marks[c] == Full && !In(s, c, NeedsControl) ==> IsFull(s.m.belts[c]))
    && (In(s, c, NeedsControl) ==> s.m.marks[c] == Full && !IsFull(s.m.belts[c]))
  }

  ghost predicate Marks(s: State)
    requires WellFormed(s)
  {
    && (forall c :: 0 <= c < |s.cons| ==> MarkMeans(s, c))
    && ((s.prod.Searched? && s.prod.found) || s.prod.Chosen? || s.prod.Placed? || s.prod.Marking? ==>
          s.m.marks[s.m.next] == HasSpace)
    && (s.prod.Marking? || s.prod.Marked? ==> IsFull(s.m.belts[s.m.next]))
    && (s.prod.Marked? ==> s.m.marks[s.m.next] == Full)
    && (s.prod.Leaving? ==> s.m.marks[s.m.next] != Unused)
    && (s.m.producerNapping ==> forall c :: 0 <= c < |s.cons| ==> s.m.marks[c] != HasSpace)
  }

  ghost predicate Queues(s: State)
    requires WellFormed(s)
  {
    forall c :: 0 <= c < |s.cons| ==> s.puts[c] == s.takes[c] + s.m.belts[c].Contents()
  }

  ghost predicate Inv(s: State) {
    WellFormed(s) && Locks(s) && OnePermit(s) && OneTurnEach(s) && Marks(s) && Queues(s)
  }

  ghost predicate Init(s: State) {
    && WellFormed(s)
    && s.control.ControlFree? && s.prod.Idle? && s.sem0 == 1 && s.permit.OnSemaphore? && !s.m.producerNapping
    && (forall c :: 0 <= c < |s.cons| ==>
      && s.m.belts[c].count == 0 && s.m.belts[c].Capacity() >= 1 && !s.m.napping[c] && s.m.marks[c] == Unused
      && s.locks[c].Open? && s.sem[c] == 1 && s.cons[c].Off? && s.puts[c] == [] && s.takes[c] == [])
  }

  lemma InitHolds(s: State)
    requires Init(s)
    ensures Inv(s)
  {
  }

  // ---------------------------------------------------------------- one step

  // The belts stay well formed: the bag is placed where there is room.
  lemma PutKeepsShape(s: State, l: Label)
    requires WellFormed(s) && Enabled(s, l) && !ScannerLabel(l)
    requires s.prod.Chosen? ==> !IsFull(s.m.belts[s.m.next])
    ensures WellFormed(Apply(s, l)) && |Apply(s, l).cons| == |s.cons|
  {
    if l.PlaceEnter? {
      PushAppends(s.m.belts[s.m.next], s.prod.bag);
    }
  }

  lemma TakeKeepsShape(s: State, l: Label)
    requires WellFormed(s) && Enabled(s, l) && ScannerLabel(l)
    ensures WellFormed(Apply(s, l)) && |Apply(s, l).cons| == |s.cons|
  {
    if l.TakeEnter? && s.m.belts[l.c].count > 0 {
      PopRemovesHead(s.m.belts[l.c]);
    }
  }

  lemma StepKeepsShape(s: State, l: Label)
    requires WellFormed(s) && Enabled(s, l)
    requires s.prod.Chosen? ==> !IsFull(s.m.belts[s.m.next])
    ensures WellFormed(Apply(s, l)) && |Apply(s, l).cons| == |s.cons|
  {
    if ScannerLabel(l) {
      TakeKeepsShape(s, l);
    } else {
      PutKeepsShape(s, l);
    }
  }

  lemma PutKeepsLocks(s: State, l: Label)
    requires WellFormed(s) && Enabled(s, l) && !ScannerLabel(l) && WellFormed(Apply(s, l)) && Locks(s)
    ensures Locks(Apply(s, l))
  {
  }

  lemma OutsideKeepsLocks(s: State, l: Label)
    requires WellFormed(s) && Enabled(s, l) && ScannerLabel(l) && WellFormed(Apply(s, l)) && Locks(s)
    requires l.StartJoin? || l.JoinEnter? || l.JoinLeave? || l.JoinWake? || l.StartTake? || l.TakeWait?
    ensures Locks(Apply(s, l))
  {
  }

  lemma InsideKeepsLocks(s: State, l: Label)
    requires WellFormed(s) && Enabled(s, l) && WellFormed(Apply(s, l)) && Locks(s)
    requires l.TakeEnter? || l.Settle? || l.Keep? || l.TakeLeave?
    ensures Locks(Apply(s, l))
  {
  }

  lemma OpeningKeepsLocks(s: State, l: Label)
    requires WellFormed(s) && Enabled(s, l) && WellFormed(Apply(s, l)) && Locks(s)
    requires l.OpenEnter? || l.OpenWake? || l.OpenLeave?
    ensures Locks(Apply(s, l))
  {
  }

  lemma TakeKeepsLocks(s: State, l: Label)
    requires WellFormed(s) && Enabled(s, l) && ScannerLabel(l) && WellFormed(Apply(s, l)) && Locks(s)
    ensures Locks(Apply(s, l))
  {
    if l.StartJoin? || l.JoinEnter? || l.JoinLeave? || l.JoinWake? || l.StartTake? || l.TakeWait? {
      OutsideKeepsLocks(s, l);
    } else if l.OpenEnter? || l.OpenWake? || l.OpenLeave? {
      OpeningKeepsLocks(s, l);
    } else {
      InsideKeepsLocks(s, l);
    }
  }

  lemma PutKeepsPermit(s: State, l: Label)
    requires WellFormed(s) && Enabled(s, l) && !ScannerLabel(l) && WellFormed(Apply(s, l)) && OnePermit(s)
    ensures OnePermit(Apply(s, l))
  {
  }

  lemma WakingKeepsPermit(s: State, l: Label)
    requires WellFormed(s) && Enabled(s, l) && ScannerLabel(l) && WellFormed(Apply(s, l)) && OnePermit(s) && Locks(s)
    requires l.JoinEnter? || l.JoinLeave? || l.JoinWake? || l.OpenEnter? || l.OpenWake?
    ensures OnePermit(Apply(s, l))
  {
  }

  lemma RestKeepsPermit(s: State, l: Label)
    requires WellFormed(s) && Enabled(s, l) && ScannerLabel(l) && WellFormed(Apply(s, l)) && OnePermit(s) && Locks(s)
    requires l.StartJoin? || l.StartTake? || l.TakeWait? || l.TakeEnter?
    ensures OnePermit(Apply(s, l))
  {
  }

  lemma LeavingKeepsPermit(s: State, l: Label)
    requires WellFormed(s) && Enabled(s, l) && ScannerLabel(l) && WellFormed(Apply(s, l)) && OnePermit(s) && Locks(s)
    requires l.OpenLeave? || l.Settle? || l.Keep? || l.TakeLeave?
    ensures OnePermit(Apply(s, l))
  {
  }

  lemma TakeKeepsPermit(s: State, l: Label)
    requires WellFormed(s) && Enabled(s, l) && ScannerLabel(l) && WellFormed(Apply(s, l)) && OnePermit(s) && Locks(s)
    ensures OnePermit(Apply(s, l))
  {
    if l.JoinEnter? || l.JoinLeave? || l.JoinWake? || l.OpenEnter? || l.OpenWake? {
      WakingKeepsPermit(s, l);
    } else if l.OpenLeave? || l.Settle? || l.Keep? || l.TakeLeave? {
      LeavingKeepsPermit(s, l);
    } else {
      RestKeepsPermit(s, l);
    }
  }

  lemma PutKeepsTurns(s: State, l: Label)
    requires WellFormed(s) && Enabled(s, l) && !ScannerLabel(l) && WellFormed(Apply(s, l)) && OneTurnEach(s)
    ensures OneTurnEach(Apply(s, l))
  {
    var t := Apply(s, l);
    forall c | 0 <= c < |t.cons| ensures Turns(t, c) == 1 && (t.m.napping[c] ==> t.m.belts[c].count == 0) {
      assert Turns(s, c) == 1;
    }
  }

  lemma TakeKeepsTurns(s: State, l: Label)
    requires WellFormed(s) && Enabled(s, l) && ScannerLabel(l) && WellFormed(Apply(s, l)) && OneTurnEach(s)
    ensures OneTurnEach(Apply(s, l))
  {
    var t := Apply(s, l);
    forall c | 0 <= c < |t.cons| ensures Turns(t, c) == 1 && (t.m.napping[c] ==> t.m.belts[c].count == 0) {
      assert Turns(s, c) == 1;
    }
  }

  lemma PutKeepsMarks(s: State, l: Label)
    requires WellFormed(s) && Enabled(s, l) && !ScannerLabel(l) && WellFormed(Apply(s, l)) && Marks(s) && Locks(s)
    ensures Marks(Apply(s, l))
  {
    var t := Apply(s, l);
    forall c | 0 <= c < |t.cons| ensures MarkMeans(t, c) {
      assert MarkMeans(s, c);
    }
    if l.SearchEnter? {
      FullTurn(s.m.marks, s.m.next);
    }
  }

  lemma TakingKeepsMarks(s: State, c: nat)
    requires WellFormed(s) && Enabled(s, TakeEnter(c)) && WellFormed(Apply(s, TakeEnter(c))) && Marks(s) && Locks(s)
    ensures Marks(Apply(s, TakeEnter(c)))
  {
    var t := Apply(s, TakeEnter(c));
    forall k | 0 <= k < |t.cons| ensures MarkMeans(t, k) {
      assert MarkMeans(s, k);
    }
  }

  lemma EntryKeepsMarks(s: State, l: Label)
    requires WellFormed(s) && Enabled(s, l) && ScannerLabel(l) && WellFormed(Apply(s, l)) && Marks(s) && Locks(s)
    requires l.JoinEnter? || l.OpenEnter?
    ensures Marks(Apply(s, l))
  {
    var t := Apply(s, l);
    forall c | 0 <= c < |t.cons| ensures MarkMeans(t, c) {
      assert MarkMeans(s, c);
    }
  }

  // Marks speak of the belts, of the producer and of two places in a scanner's code.
  lemma MarksFrame(s: State, t: State)
    requires WellFormed(s) && Marks(s) && WellFormed(t) && |t.cons| == |s.cons|
    requires t.m.belts == s.m.belts && t.m.marks == s.m.marks && t.m.next == s.m.next && t.prod == s.prod
    requires t.m.producerNapping == s.m.producerNapping
    requires forall c :: 0 <= c < |s.cons| ==>
      && (t.cons[c].Off? || t.cons[c].Joining? <==> s.cons[c].Off? || s.cons[c].Joining?)
      && (In(t, c, NeedsControl) <==> In(s, c, NeedsControl))
    ensures Marks(t)
  {
    forall c | 0 <= c < |t.cons| ensures MarkMeans(t, c) {
      assert MarkMeans(s, c);
    }
  }

  lemma InsideKeepsMarks(s: State, l: Label)
    requires WellFormed(s) && Enabled(s, l) && WellFormed(Apply(s, l)) && Marks(s)
    requires l.OpenWake? || l.OpenLeave? || l.Settle? || l.Keep? || l.TakeLeave?
    ensures Marks(Apply(s, l))
  {
    MarksFrame(s, Apply(s, l));
  }

  lemma OutsideKeepsMarks(s: State, l: Label)
    requires WellFormed(s) && Enabled(s, l) && ScannerLabel(l) && WellFormed(Apply(s, l)) && Marks(s) && Locks(s)
    requires !(l.JoinEnter? || l.OpenEnter? || l.TakeEnter?)
    requires !(l.OpenWake? || l.OpenLeave? || l.Settle? || l.Keep? || l.TakeLeave?)
    ensures Marks(Apply(s, l))
  {
    var t := Apply(s, l);
    forall c | 0 <= c < |t.cons| ensures MarkMeans(t, c) {
      assert MarkMeans(s, c);
    }
  }

  lemma RestKeepsMarks(s: State, l: Label)
    requires WellFormed(s) && Enabled(s, l) && ScannerLabel(l) && WellFormed(Apply(s, l)) && Marks(s) && Locks(s)
    requires !(l.JoinEnter? || l.OpenEnter? || l.TakeEnter?)
    ensures Marks(Apply(s, l))
  {
    if l.OpenWake? || l.OpenLeave? || l.Settle? || l.Keep? || l.TakeLeave? {
      InsideKeepsMarks(s, l);
    } else {
      OutsideKeepsMarks(s, l);
    }
  }

  lemma TakeKeepsMarks(s: State, l: Label)
    requires WellFormed(s) && Enabled(s, l) && ScannerLabel(l) && WellFormed(Apply(s, l)) && Marks(s) && Locks(s)
    ensures Marks(Apply(s, l))
  {
    if l.TakeEnter? {
      TakingKeepsMarks(s, l.c);
    } else if l.JoinEnter? || l.OpenEnter? {
      EntryKeepsMarks(s, l);
    } else {
      RestKeepsMarks(s, l);
    }
  }

  lemma PutKeepsQueues(s: State, l: Label)
    requires WellFormed(s) && Enabled(s, l) && !ScannerLabel(l) && WellFormed(Apply(s, l)) && Queues(s)
    requires s.prod.Chosen? ==> !IsFull(s.m.belts[s.m.next])
    ensures Queues(Apply(s, l))
  {
    if l.PlaceEnter? {
      PushAppends(s.m.belts[s.m.next], s.prod.bag);
    }
  }

  lemma TakeKeepsQueues(s: State, l: Label)
    requires WellFormed(s) && Enabled(s, l) && ScannerLabel(l) && WellFormed(Apply(s, l)) && Queues(s)
    ensures Queues(Apply(s, l))
  {
    if l.TakeEnter? && s.m.belts[l.c].count > 0 {
      PopRemovesHead(s.m.belts[l.c]);
    }
  }

  lemma StepKeeps(s: State, l: Label)
    requires Inv(s) && Enabled(s, l)
    ensures Inv(Apply(s, l))
  {
    assert MarkMeans(s, s.m.next);
    StepKeepsShape(s, l);
    if ScannerLabel(l) {
      TakeKeepsQueues(s, l);
      TakeKeepsLocks(s, l);
      TakeKeepsPermit(s, l);
      TakeKeepsTurns(s, l);
      TakeKeepsMarks(s, l);
    } else {
      PutKeepsQueues(s, l);
      PutKeepsLocks(s, l);
      PutKeepsPermit(s, l);
      PutKeepsTurns(s, l);
      PutKeepsMarks(s, l);
    }
  }

  /** Every reachable state keeps the locks, the permissions, the marks and the queues. */
  lemma {:induction false} RunKeeps(s: State, run: seq<Label>)
    requires Inv(s) && Runs(s, run)
    ensures Inv(After(s, run))
    decreases |run|
  {
    if run != [] {
      StepKeeps(s, run[0]);
      RunKeeps(Apply(s, run[0]), run[1..]);
    }
  }

  // ---------------------------------------------------------------- what the invariant gives

  /** Room is looked for under one lock and used under another; still the bag always goes
      where there is room, and each belt is a bounded first-in first-out queue. */
  lemma QueuesOverRuns(s: State, run: seq<Label>, c: nat)
    requires Init(s) && Runs(s, run) && c < |After(s, run).cons|
    ensures var t := After(s, run);
      && WellFormed(t)
      && t.takes[c] <= t.puts[c]
      && t.m.belts[c].Valid() && t.m.belts[c].Contents() == t.puts[c][|t.takes[c]|..]
      && |t.puts[c]| - |t.takes[c]| <= t.m.belts[c].Capacity()
      && (t.prod.Chosen? ==> !IsFull(t.m.belts[t.m.next]))
  {
    InitHolds(s);
    RunKeeps(s, run);
    var t := After(s, run);
    assert MarkMeans(t, t.m.next);
  }

  /** Whenever the lock of a belt in use is free, its mark says exactly whether it is full;
      and a producer that sleeps does so because no belt is marked as having space. */
  lemma MarksTellTheTruth(s: State, c: nat)
    requires Inv(s) && c < |s.cons|
    ensures s.locks[c].Open? && s.m.marks[c] != Unused ==> (s.m.marks[c] == Full <==> IsFull(s.m.belts[c]))
    ensures s.m.producerNapping ==> s.m.marks[c] != HasSpace
  {
    assert MarkMeans(s, c);
  }

  // Steps that finish what is in progress.
  ghost predicate Internal(l: Label) { !l.StartPut? && !l.StartJoin? && !l.StartTake? }

  ghost predicate Stuck(s: State)
    requires WellFormed(s)
  {
    forall l :: Internal(l) ==> !Enabled(s, l)
  }

  ghost predicate AllRestOrSleep(s: State)
    requires WellFormed(s)
  {
    && s.control.ControlFree?
    && (s.prod.Idle? || (s.prod.AtSemaphore? && s.m.producerNapping))
    && (forall c :: 0 <= c < |s.cons| ==>
          s.cons[c].Off? || s.cons[c].Resting? || (s.cons[c].Waiting? && s.m.napping[c]))
  }

  lemma StuckControl(s: State)
    requires WellFormed(s) && Locks(s) && Stuck(s)
    ensures s.control.ControlFree?
  {
    assert !Enabled(s, SearchLeave) && !Enabled(s, MarkLeave);
    forall d: nat | d < |s.cons| ensures s.control != ControlScanner(d) {
      assert !Enabled(s, JoinLeave(d)) && !Enabled(s, OpenWake(d)) && !Enabled(s, OpenLeave(d));
    }
  }

  lemma StuckInside(s: State, c: nat)
    requires WellFormed(s) && Stuck(s) && s.control.ControlFree? && c < |s.cons|
    ensures !s.cons[c].Inside?
  {
    assert !Enabled(s, OpenEnter(c)) && !Enabled(s, OpenWake(c)) && !Enabled(s, OpenLeave(c));
    assert !Enabled(s, Settle(c)) && !Enabled(s, Keep(c)) && !Enabled(s, TakeLeave(c));
  }

  lemma StuckScanner(s: State, c: nat)
    requires WellFormed(s) && Locks(s) && Stuck(s) && c < |s.cons|
    ensures !s.cons[c].Inside? && !s.cons[c].Joining? && !s.cons[c].Joined? && !s.cons[c].Announcing?
  {
    StuckControl(s);
    StuckInside(s, c);
    assert !Enabled(s, JoinEnter(c)) && !Enabled(s, JoinLeave(c)) && !Enabled(s, JoinWake(c));
  }

  lemma StuckProducer(s: State)
    requires Inv(s) && Stuck(s)
    ensures s.prod.Idle? || (s.prod.AtSemaphore? && s.m.producerNapping)
  {
    StuckControl(s);
    StuckScanner(s, s.m.next);
    assert !Enabled(s, SearchEnter) && !Enabled(s, SearchLeave) && !Enabled(s, PlaceEnter);
    assert !Enabled(s, PlaceWake) && !Enabled(s, PlaceDone) && !Enabled(s, MarkEnter);
    assert !Enabled(s, MarkLeave) && !Enabled(s, PlaceLeave) && !Enabled(s, PutReturn) && !Enabled(s, PutWait);
    if s.permit.WithScanner? {
      StuckScanner(s, s.permit.c);
    }
  }

  /** The two kinds of lock never deadlock: the belts stop exactly when each process has
      finished or sleeps on its flag. */
  lemma StuckExactlyWhenAsleep(s: State)
    requires Inv(s)
    ensures Stuck(s) <==> AllRestOrSleep(s)
  {
    if Stuck(s) {
      StuckProducer(s);
      StuckControl(s);
      forall c | 0 <= c < |s.cons|
        ensures s.cons[c].Off? || s.cons[c].Resting? || (s.cons[c].Waiting? && s.m.napping[c])
      {
        StuckScanner(s, c);
        assert Turns(s, c) == 1;
        assert !Enabled(s, TakeWait(c)) && !Enabled(s, TakeEnter(c));
      }
    }
    forall c | 0 <= c < |s.cons| && s.m.napping[c] ensures s.sem[c] == 0 {
      assert Turns(s, c) == 1;
    }
  }

  // ---------------------------------------------------------------- every open belt gets its bags

  // Placements that can go to other belts before belt c gets one.
  ghost function Ahead(s: State, c: nat): (r: nat)
    requires WellFormed(s) && c < |s.cons|
    ensures r < |s.cons|
  {
    var n := |s.cons|;
    Steps(if InBelt(s.prod) then Around(s.m.next + 1, n) else s.m.next, c, n)
  }

  ghost predicate StaysOpen(s: State, run: seq<Label>, c: nat)
    requires Runs(s, run)
    decreases |run|
  {
    && c < |s.m.marks| && s.m.marks[c] == HasSpace
    && (run == [] || StaysOpen(Apply(s, run[0]), run[1..], c))
  }

  function Placements(run: seq<Label>): nat {
    if run == [] then 0 else (if run[0].PlaceEnter? then 1 else 0) + Placements(run[1..])
  }

  // The search never passes an open belt.
  lemma SearchComesNearer(s: State, c: nat)
    requires Inv(s) && Enabled(s, SearchEnter) && c < |s.cons| && s.m.marks[c] == HasSpace
    ensures WellFormed(Apply(s, SearchEnter)) && |Apply(s, SearchEnter).cons| == |s.cons|
    ensures Ahead(Apply(s, SearchEnter), c) <= Ahead(s, c)
  {
    var n := |s.cons|;
    var at := ChooseLocked(s.m).next;
    FullTurn(s.m.marks, s.m.next);
    if Steps(s.m.next, c, n) < Steps(s.m.next, at, n) {
      StopsAtFirst(s.m.marks, s.m.next, n, c);
    }
  }

  lemma TakesComeNoNearer(s: State, l: Label, c: nat)
    requires WellFormed(s) && Enabled(s, l) && ScannerLabel(l) && c < |s.cons|
    requires WellFormed(Apply(s, l)) && |Apply(s, l).cons| == |s.cons|
    ensures Apply(s, l).puts == s.puts && Ahead(Apply(s, l), c) == Ahead(s, c)
  {
  }

  lemma PutsComeNearer(s: State, l: Label, c: nat)
    requires WellFormed(s) && Enabled(s, l) && !ScannerLabel(l) && !l.SearchEnter? && c < |s.cons|
    requires WellFormed(Apply(s, l)) && |Apply(s, l).cons| == |s.cons|
    ensures var t, here := Apply(s, l), l.PlaceEnter? && s.m.next == c;
      && t.puts[c] == s.puts[c] + (if here then [s.prod.bag] else [])
      && (here ==> Ahead(s, c) == 0)
      && (!here ==> Ahead(t, c) + (if l.PlaceEnter? then 1 else 0) <= Ahead(s, c))
  {
  }

  // A step places a bag on belt c, or brings the producer's turn no further from it, and nearer when
  // the bag goes to another.
  ghost predicate ComesNearer(s: State, l: Label, c: nat)
    requires WellFormed(s) && Enabled(s, l) && c < |s.cons|
  {
    var t, here := Apply(s, l), l.PlaceEnter? && s.m.next == c;
    && WellFormed(t) && |t.cons| == |s.cons|
    && |t.puts[c]| == |s.puts[c]| + (if here then 1 else 0)
    && (here ==> Ahead(s, c) == 0)
    && (!here ==> Ahead(t, c) + (if l.PlaceEnter? then 1 else 0) <= Ahead(s, c))
  }

  lemma StepComesNearer(s: State, l: Label, c: nat)
    requires Inv(s) && Enabled(s, l) && c < |s.cons| && s.m.marks[c] == HasSpace
    ensures ComesNearer(s, l, c)
  {
    StepKeepsSize(s, l);
    if l.SearchEnter? {
      SearchComesNearer(s, c);
    } else if ScannerLabel(l) {
      TakesComeNoNearer(s, l, c);
    } else {
      PutsComeNearer(s, l, c);
    }
  }

  lemma StepKeepsSize(s: State, l: Label)
    requires Inv(s) && Enabled(s, l)
    ensures WellFormed(Apply(s, l)) && |Apply(s, l).cons| == |s.cons|
  {
    assert MarkMeans(s, s.m.next);
    StepKeepsShape(s, l);
  }

  // k rounds of n placements.
  function Rounds(n: nat, k: nat): nat {
    if k == 0 then 0 else n + Rounds(n, k - 1)
  }

  lemma {:induction false} RoundsIsProduct(n: nat, k: nat)
    ensures Rounds(n, k) == n * k
  {
    if k > 0 {
      RoundsIsProduct(n, k - 1);
      assert n * k == n * (k - 1) + n;
    }
  }

  ghost predicate AlwaysNearer(s: State, run: seq<Label>, c: nat)
    requires Runs(s, run)
    decreases |run|
  {
    run == [] || (c < |s.cons| && ComesNearer(s, run[0], c) && AlwaysNearer(Apply(s, run[0]), run[1..], c))
  }

  lemma {:induction false} OpenBeltComesNearer(s: State, run: seq<Label>, c: nat)
    requires Inv(s) && Runs(s, run) && c < |s.cons| && StaysOpen(s, run, c)
    ensures AlwaysNearer(s, run, c)
    decreases |run|
  {
    if run != [] {
      StepComesNearer(s, run[0], c);
      StepKeeps(s, run[0]);
      OpenBeltComesNearer(Apply(s, run[0]), run[1..], c);
    }
  }

  lemma {:induction false} ShareOfNearing(s: State, run: seq<Label>, c: nat)
    requires WellFormed(s) && Runs(s, run) && c < |s.cons| && AlwaysNearer(s, run, c)
    ensures |After(s, run).cons| == |After(s, run).puts| == |s.cons| && |After(s, run).puts[c]| >= |s.puts[c]|
    ensures Placements(run) <= Rounds(|s.cons|, |After(s, run).puts[c]| - |s.puts[c]|) + Ahead(s, c)
    decreases |run|
  {
    if run != [] {
      ShareOfNearing(Apply(s, run[0]), run[1..], c);
    }
  }

  /** The producer goes round: as long as a belt stays open, of every |belts| bags placed at least
      one is placed on it. */
  lemma OpenBeltGetsItsShare(s: State, run: seq<Label>, c: nat)
    requires Inv(s) && Runs(s, run) && c < |s.cons| && StaysOpen(s, run, c)
    ensures |After(s, run).cons| == |After(s, run).puts| == |s.cons| && |After(s, run).puts[c]| >= |s.puts[c]|
    ensures Placements(run) < |s.cons| * (|After(s, run).puts[c]| - |s.puts[c]| + 1)
  {
    OpenBeltComesNearer(s, run, c);
    ShareOfNearing(s, run, c);
    var n, more := |s.cons|, |After(s, run).puts[c]| - |s.puts[c]|;
    RoundsIsProduct(n, more);
    assert n * (more + 1) == n * more + n;
  }

  // ---------------------------------------------------------------- no bag is lost

  function AskedFor(run: seq<Label>): multiset<Bag> {
    if run == [] then multiset{}
    else (if run[0].StartPut? then multiset{run[0].e} else multiset{}) + AskedFor(run[1..])
  }

  function InHand(p: Producer): multiset<Bag> {
    if p.AtSemaphore? || p.Awake? || p.Searched? || p.Chosen? then multiset{p.bag} else multiset{}
  }

  function OnAll(histories: seq<seq<Bag>>): multiset<Bag> {
    if histories == [] then multiset{} else multiset(histories[0]) + OnAll(histories[1..])
  }

  lemma {:induction false} OneMoreOn(histories: seq<seq<Bag>>, c: nat, e: Bag)
    requires c < |histories|
    ensures OnAll(histories[c := histories[c] + [e]]) == OnAll(histories) + multiset{e}
  {
    var more := histories[c := histories[c] + [e]];
    if c > 0 {
      assert more[1..] == histories[1..][c - 1 := histories[1..][c - 1] + [e]];
      OneMoreOn(histories[1..], c - 1, e);
    } else {
      assert more[1..] == histories[1..];
    }
  }

  lemma TakeLeavesPuts(s: State, l: Label)
    requires WellFormed(s) && Enabled(s, l) && ScannerLabel(l)
    ensures Apply(s, l).puts == s.puts && Apply(s, l).prod == s.prod
  {
  }

  lemma PlacingAccounts(s: State)
    requires WellFormed(s) && Enabled(s, PlaceEnter)
    ensures OnAll(Apply(s, PlaceEnter).puts) == OnAll(s.puts) + InHand(s.prod)
    ensures InHand(Apply(s, PlaceEnter).prod) == multiset{}
  {
    OneMoreOn(s.puts, s.m.next, s.prod.bag);
  }

  lemma PutLeavesPuts(s: State, l: Label)
    requires WellFormed(s) && Enabled(s, l) && !ScannerLabel(l) && !l.PlaceEnter?
    ensures Apply(s, l).puts == s.puts
  {
  }

  lemma HandStays(s: State, l: Label)
    requires WellFormed(s) && Enabled(s, l) && !ScannerLabel(l) && !l.PlaceEnter?
    ensures InHand(Apply(s, l).prod) == if l.StartPut? then multiset{l.e} else InHand(s.prod)
    ensures l.StartPut? ==> InHand(s.prod) == multiset{}
  {
  }

  lemma StepAccounts(s: State, l: Label)
    requires WellFormed(s) && Enabled(s, l)
    ensures OnAll(Apply(s, l).puts) + InHand(Apply(s, l).prod)
      == OnAll(s.puts) + InHand(s.prod) + if l.StartPut? then multiset{l.e} else multiset{}
  {
    if ScannerLabel(l) {
      TakeLeavesPuts(s, l);
    } else if l.PlaceEnter? {
      PlacingAccounts(s);
    } else {
      PutLeavesPuts(s, l);
      HandStays(s, l);
    }
  }

  lemma {:induction false} RunAccounts(s: State, run: seq<Label>)
    requires Runs(s, run)
    ensures OnAll(After(s, run).puts) + InHand(After(s, run).prod) == OnAll(s.puts) + InHand(s.prod) + AskedFor(run)
    decreases |run|
  {
    if run != [] {
      StepAccounts(s, run[0]);
      RunAccounts(Apply(s, run[0]), run[1..]);
    }
  }

  lemma {:induction false} NothingOn(histories: seq<seq<Bag>>)
    requires forall c :: 0 <= c < |histories| ==> histories[c] == []
    ensures OnAll(histories) == multiset{}
  {
    if histories != [] {
      NothingOn(histories[1..]);
    }
  }

  /** Every bag the producer is asked to put is on some belt once, or in the producer's hand: a put
      ends only when its bag is placed, however often it finds all belts full. */
  lemma EveryBagIsPlaced(s: State, run: seq<Label>)
    requires Init(s) && Runs(s, run)
    ensures AskedFor(run) == OnAll(After(s, run).puts) + InHand(After(s, run).prod)
  {
    NothingOn(s.puts);
    RunAccounts(s, run);
  }

  function TakesBegun(run: seq<Label>, c: nat): nat {
    if run == [] then 0 else (if run[0] == StartTake(c) then 1 else 0) + TakesBegun(run[1..], c)
  }

  // The scanner is in a take that has not found its bag yet.
  predicate Seeks(x: Scanner) {
    x.Waiting? || x.Roused? || (x.Inside? && !x.done)
  }

  // A take that has found its bag gives back the one it removed.
  ghost predicate GivesLast(s: State, c: nat)
    requires WellFormed(s) && c < |s.cons|
  {
    s.cons[c].Inside? && s.cons[c].done ==>
      s.takes[c] != [] && s.cons[c].bag == s.takes[c][|s.takes[c]| - 1]
  }

  // What a step takes from belt c.
  ghost predicate TakesRightly(s: State, l: Label, c: nat)
    requires WellFormed(s) && Enabled(s, l) && c < |s.cons|
    requires WellFormed(Apply(s, l)) && |Apply(s, l).cons| == |s.cons|
  {
    && GivesLast(Apply(s, l), c)
    && |Apply(s, l).takes[c]| + One(Seeks(Apply(s, l).cons[c]))
         == |s.takes[c]| + One(Seeks(s.cons[c])) + if l == StartTake(c) then 1 else 0
  }

  lemma PutTakesNothing(s: State, l: Label, c: nat)
    requires WellFormed(s) && Enabled(s, l) && !ScannerLabel(l) && c < |s.cons| && GivesLast(s, c)
    requires WellFormed(Apply(s, l)) && |Apply(s, l).cons| == |s.cons|
    ensures TakesRightly(s, l, c)
  {
    assert Apply(s, l).takes == s.takes && Apply(s, l).cons == s.cons;
  }

  lemma TakeEnterTakes(s: State, d: nat, c: nat)
    requires WellFormed(s) && Enabled(s, TakeEnter(d)) && c < |s.cons| && GivesLast(s, c)
    requires WellFormed(Apply(s, TakeEnter(d))) && |Apply(s, TakeEnter(d)).cons| == |s.cons|
    ensures TakesRightly(s, TakeEnter(d), c)
  {
  }

  lemma OutsideTakesNothing(s: State, l: Label, c: nat)
    requires WellFormed(s) && Enabled(s, l) && ScannerLabel(l) && c < |s.cons| && GivesLast(s, c)
    requires l.StartJoin? || l.JoinEnter? || l.JoinLeave? || l.JoinWake? || l.StartTake? || l.TakeWait?
    requires WellFormed(Apply(s, l)) && |Apply(s, l).cons| == |s.cons|
    ensures TakesRightly(s, l, c)
  {
    assert Apply(s, l).takes == s.takes;
  }

  lemma InsideTakesNothing(s: State, l: Label, c: nat)
    requires WellFormed(s) && Enabled(s, l) && ScannerLabel(l) && c < |s.cons| && GivesLast(s, c)
    requires l.OpenEnter? || l.OpenWake? || l.OpenLeave? || l.Settle? || l.Keep?
    requires WellFormed(Apply(s, l)) && |Apply(s, l).cons| == |s.cons|
    ensures TakesRightly(s, l, c)
  {
    assert Apply(s, l).takes == s.takes;
  }

  lemma LeavingTakesNothing(s: State, d: nat, c: nat)
    requires WellFormed(s) && Enabled(s, TakeLeave(d)) && c < |s.cons| && GivesLast(s, c)
    requires WellFormed(Apply(s, TakeLeave(d))) && |Apply(s, TakeLeave(d)).cons| == |s.cons|
    ensures TakesRightly(s, TakeLeave(d), c)
  {
    assert Apply(s, TakeLeave(d)).takes == s.takes;
  }

  lemma StepTakes(s: State, l: Label, c: nat)
    requires WellFormed(s) && Enabled(s, l) && c < |s.cons| && GivesLast(s, c)
    requires WellFormed(Apply(s, l)) && |Apply(s, l).cons| == |s.cons|
    ensures TakesRightly(s, l, c)
  {
    if !ScannerLabel(l) {
      PutTakesNothing(s, l, c);
    } else if l.TakeEnter? {
      TakeEnterTakes(s, l.c, c);
    } else if l.TakeLeave? {
      LeavingTakesNothing(s, l.c, c);
    } else if l.OpenEnter? || l.OpenWake? || l.OpenLeave? || l.Settle? || l.Keep? {
      InsideTakesNothing(s, l, c);
    } else {
      OutsideTakesNothing(s, l, c);
    }
  }

  lemma {:induction false} RunTakes(s: State, run: seq<Label>, c: nat)
    requires Inv(s) && Runs(s, run) && c < |s.cons| && GivesLast(s, c)
    ensures WellFormed(After(s, run)) && |After(s, run).cons| == |s.cons| && GivesLast(After(s, run), c)
    ensures |After(s, run).takes[c]| + One(Seeks(After(s, run).cons[c]))
      == |s.takes[c]| + One(Seeks(s.cons[c])) + TakesBegun(run, c)
    decreases |run|
  {
    if run != [] {
      StepKeepsSize(s, run[0]);
      StepKeeps(s, run[0]);
      StepTakes(s, run[0], c);
      RunTakes(Apply(s, run[0]), run[1..], c);
    }
  }

  /** A take ends only with a bag, and with the one it removed: over every run a scanner has taken as
      many bags as it has begun takes, less one while it is still looking. */
  lemma EveryTakeTakesOne(s: State, run: seq<Label>, c: nat)
    requires Init(s) && Runs(s, run) && c < |s.cons|
    ensures WellFormed(After(s, run)) && |After(s, run).cons| == |s.cons| && GivesLast(After(s, run), c)
    ensures TakesBegun(run, c) == |After(s, run).takes[c]| + One(Seeks(After(s, run).cons[c]))
  {
    InitHolds(s);
    RunTakes(s, run, c);
  }

  // Nothing is ever placed on a belt that is not in use.
  ghost predicate UnusedAreUntouched(s: State)
    requires WellFormed(s)
  {
    forall c :: 0 <= c < |s.cons| && s.m.marks[c] == Unused ==> s.puts[c] == []
  }

  lemma {:induction false} RunLeavesUnused(s: State, run: seq<Label>)
    requires Inv(s) && Runs(s, run) && UnusedAreUntouched(s)
    ensures Inv(After(s, run)) && UnusedAreUntouched(After(s, run))
    decreases |run|
  {
    if run != [] {
      StepKeeps(s, run[0]);
      StepLeavesUnused(s, run[0]);
      RunLeavesUnused(Apply(s, run[0]), run[1..]);
    }
  }

  lemma StepLeavesUnused(s: State, l: Label)
    requires Inv(s) && Enabled(s, l) && UnusedAreUntouched(s) && WellFormed(Apply(s, l))
    ensures UnusedAreUntouched(Apply(s, l))
  {
  }

  /** With at least one scanner in use and all those in use at work, the belts stop only when
      the producer has nothing in progress and every bag placed on them has been taken. */
  lemma StopsOnlyWhenDrained(s: State, a: nat)
    requires Inv(s) && Stuck(s)
    requires a < |s.cons| && !s.cons[a].Off?
    requires forall c :: 0 <= c < |s.cons| ==> !s.cons[c].Resting?
    ensures s.prod.Idle?
    ensures forall c :: 0 <= c < |s.cons| && !s.cons[c].Off? ==> s.m.belts[c].count == 0 && s.takes[c] == s.puts[c]
  {
    StuckExactlyWhenAsleep(s);
    assert Turns(s, a) == 1;
    MarksTellTheTruth(s, a);
    forall c | 0 <= c < |s.cons| && !s.cons[c].Off? ensures s.m.belts[c].count == 0 {
      assert Turns(s, c) == 1;
    }
    assert MarkMeans(s, a);
  }

  /** With a scanner in use and all those in use at work, the belts stop only when every bag the
      producer was asked to put has been taken, over every run. */
  lemma AllAskedForIsTaken(s: State, run: seq<Label>, a: nat)
    requires Init(s) && Runs(s, run) && WellFormed(After(s, run)) && Stuck(After(s, run))
    requires a < |After(s, run).cons| && !After(s, run).cons[a].Off?
    requires forall c :: 0 <= c < |After(s, run).cons| ==> !After(s, run).cons[c].Resting?
    ensures AskedFor(run) == OnAll(After(s, run).takes)
  {
    var t := After(s, run);
    InitHolds(s);
    RunLeavesUnused(s, run);
    EveryBagIsPlaced(s, run);
    StopsOnlyWhenDrained(t, a);
    forall c | 0 <= c < |t.cons| ensures t.takes[c] == t.puts[c] {
      assert MarkMeans(t, c);
    }
    assert t.takes == t.puts;
  }
}
