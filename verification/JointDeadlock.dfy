/** Two processes that take two memories in opposite order, and come to wait for each other. */
module JointDeadlock {
  import opened Wakeups
  import opened SharedRegister
  import opened WaitingChains
  import opened JointLocks
  import C = Coherence

  ghost predicate Reachable(s: State, t: State) {
    exists run :: Runs(s, run) && After(s, run) == t
  }

  lemma {:induction false} RunsOn(s: State, run: seq<Label>, x: Label)
    requires Runs(s, run) && WellFormed(After(s, run)) && Enabled(After(s, run), x)
    ensures Runs(s, run + [x]) && After(s, run + [x]) == Apply(After(s, run), x)
    decreases |run|
  {
    if run == [] {
      assert [x][1..] == [] && run + [x] == [x];
      assert Runs(Apply(s, x), []);
    } else {
      assert (run + [x])[0] == run[0] && (run + [x])[1..] == run[1..] + [x];
      RunsOn(Apply(s, run[0]), run[1..], x);
    }
  }

  lemma ReachOn(s: State, t: State, x: Label)
    requires Reachable(s, t) && WellFormed(t) && Enabled(t, x)
    ensures Reachable(s, Apply(t, x))
  {
    var run :| Runs(s, run) && After(s, run) == t;
    RunsOn(s, run, x);
  }

  lemma ReachSelf(s: State)
    ensures Reachable(s, s)
  {
    var none: seq<Label> := [];
    assert Runs(s, none) && After(s, none) == s;
  }

  // Steps that concern no application but the one that wakes, and no register.
  predicate Quiet(l: C.Label) {
    !Touches(l) && !l.Return? && !l.Write?
  }

  lemma QuietStep(s: State, r: nat, l: C.Label)
    requires Inv(s) && r < |s.parts| && C.Enabled(s.parts[r], l) && Quiet(l)
    ensures Enabled(s, On(r, l)) && Apply(s, On(r, l)) == s.(parts := s.parts[r := C.Apply(s.parts[r], l)])
  {
    assert Apply(s, On(r, l)).parts == s.parts[r := C.Apply(s.parts[r], l)];
  }

  // Only client k does anything with the memory, and it is inside `lock`.
  ghost predicate OnlyWaits(p: C.State, k: nat) {
    && C.Inv(p) && k < |p.clients| && InLock(p.clients[k].app) && p.clients[k].register.Own?
    && forall j :: 0 <= j < |p.clients| && j != k ==> p.clients[j].app.Outside?
  }

  lemma AloneIsQuiet(p: C.State, k: nat)
    requires OnlyWaits(p, k) && !p.clients[k].app.Woken?
    ensures var l := C.NextStep(p);
      && C.Enabled(p, l) && Quiet(l) && OnlyWaits(C.Apply(p, l), k)
      && C.Distance(C.Apply(p, l), k) < C.Distance(p, k) && |C.Apply(p, l).clients| == |p.clients|
  {
    var l := C.NextStep(p);
    C.TokenNeverStuck(p);
    C.StepKeeps(p, l);
    C.StepComesNearer(p, k, l);
  }

  // The token comes to the only client that wants it.
  lemma {:induction false} WokenAlone(start: State, s: State, r: nat, k: nat) returns (t: State)
    requires Reachable(start, s) && Inv(s) && r < |s.parts| && OnlyWaits(s.parts[r], k)
    ensures Reachable(start, t) && Inv(t) && |t.parts| == |s.parts| && t == s.(parts := s.parts[r := t.parts[r]])
    ensures OnlyWaits(t.parts[r], k) && t.parts[r].clients[k].app.Woken?
    decreases C.Distance(s.parts[r], k)
  {
    if s.parts[r].clients[k].app.Woken? {
      return s;
    }
    var l := C.NextStep(s.parts[r]);
    AloneIsQuiet(s.parts[r], k);
    QuietStep(s, r, l);
    ReachOn(start, s, On(r, l));
    StepKeeps(s, On(r, l));
    t := WokenAlone(start, Apply(s, On(r, l)), r, k);
  }

  ghost function App(s: State, q: nat, j: nat): C.App {
    if q < |s.parts| && j < |s.parts[q].clients| then s.parts[q].clients[j].app else C.Outside
  }

  // At most client k of memory r has moved.
  ghost predicate OnlyMoved(s: State, t: State, r: nat, k: nat) {
    && |t.parts| == |s.parts| && |t.busy| == |s.busy|
    && forall q: nat, j: nat :: !(q == r && j == k) ==> App(t, q, j) == App(s, q, j)
  }

  lemma PartOnlyMoved(s: State, x: Label, q: nat, j: nat)
    requires Inv(s) && Enabled(s, x) && !(q == x.r && j == x.l.k)
    ensures App(Apply(s, x), q, j) == App(s, q, j)
  {
    if q < |s.parts| {
      assert Apply(s, x).parts[q] == Part(s, x, q);
    }
  }

  lemma StepOnlyMoved(s: State, x: Label)
    requires Inv(s) && Enabled(s, x)
    ensures OnlyMoved(s, Apply(s, x), x.r, x.l.k)
  {
    forall q: nat, j: nat | !(q == x.r && j == x.l.k) ensures App(Apply(s, x), q, j) == App(s, q, j) {
      PartOnlyMoved(s, x, q, j);
    }
  }

  // A process that is in no call asks for another memory.
  lemma AsksFor(start: State, s: State, r: nat, k: nat) returns (t: State)
    requires Reachable(start, s) && Inv(s) && r < |s.parts| && k < |s.busy| && s.busy[k].Free?
    requires App(s, r, k).Outside?
    ensures Reachable(start, t) && Inv(t) && OnlyMoved(s, t, r, k) && t.busy == s.busy[k := Calling(r)]
    ensures App(t, r, k).Asking? && t.parts[r].clients[k].register.Own?
  {
    var x := On(r, C.Ask(k));
    ReachOn(start, s, x);
    StepKeeps(s, x);
    StepOnlyMoved(s, x);
    t := Apply(s, x);
    assert t.parts[r] == C.Apply(s.parts[r], C.Ask(k));
  }

  lemma Enters(start: State, s: State, r: nat, k: nat) returns (t: State)
    requires Reachable(start, s) && Inv(s) && App(s, r, k).Woken?
    ensures Reachable(start, t) && Inv(t) && OnlyMoved(s, t, r, k) && k < |s.busy| && t.busy == s.busy[k := Free]
    ensures App(t, r, k).Inside?
  {
    var x := On(r, C.Enter(k));
    ReachOn(start, s, x);
    StepKeeps(s, x);
    StepOnlyMoved(s, x);
    t := Apply(s, x);
    assert t.parts[r] == C.Apply(s.parts[r], C.Enter(k));
  }

  ghost predicate UnusedBut(s: State, r: nat, k: nat) {
    forall j: nat :: j != k ==> App(s, r, j).Outside?
  }

  lemma BroughtAlone(start: State, s: State, r: nat, k: nat) returns (t: State)
    requires Reachable(start, s) && Inv(s) && App(s, r, k).Asking? && s.parts[r].clients[k].register.Own?
    requires UnusedBut(s, r, k)
    ensures Reachable(start, t) && Inv(t) && OnlyMoved(s, t, r, k) && t.busy == s.busy && App(t, r, k).Woken?
  {
    forall j | 0 <= j < |s.parts[r].clients| && j != k ensures s.parts[r].clients[j].app.Outside? {
      assert App(s, r, j).Outside?;
    }
    t := WokenAlone(start, s, r, k);
    forall q: nat, j: nat | !(q == r && j == k) ensures App(t, q, j) == App(s, q, j) {
    }
  }

  // Client k takes memory r, which nobody uses; nobody else moves.
  lemma TakesUnused(start: State, s: State, r: nat, k: nat) returns (t: State)
    requires Reachable(start, s) && Inv(s) && r < |s.parts| && k < |s.busy| && s.busy[k].Free?
    requires UnusedBut(s, r, k) && App(s, r, k).Outside?
    ensures Reachable(start, t) && Inv(t) && OnlyMoved(s, t, r, k) && t.busy == s.busy && App(t, r, k).Inside?
  {
    var a := AsksFor(start, s, r, k);
    assert forall j: nat :: j != k ==> App(a, r, j) == App(s, r, j);
    var b := BroughtAlone(start, a, r, k);
    t := Enters(start, b, r, k);
  }

  lemma CircleOfTwo(s: State)
    requires Inv(s) && |s.parts| >= 2 && |s.busy| >= 2
    requires Inside(s, 0, 0) && Inside(s, 1, 1) && Waits(s, 1, 0) && Waits(s, 0, 1)
    ensures Deadlocked(s, 0) && Deadlocked(s, 1)
  {
    InsideIsHolder(s, 0, 0);
    InsideIsHolder(s, 1, 1);
    assert OneCall(s.parts[0], s.busy, 0) && OneCall(s.parts[1], s.busy, 1);
    assert Next(s, 0) == For(1) && Next(s, 1) == For(0);
    assert Closed(Chains(s), {0, 1});
  }

  /** From every initial state with two memories and two sites a deadlock is reached when two processes
      take the memories in opposite order: each is inside one and asks for the other, and neither
      ever enters, in any run of all memories together. */
  lemma OppositeOrdersDeadlock(s: State) returns (t: State)
    requires Init(s) && |s.parts| >= 2 && |s.busy| >= 2
    ensures Reachable(s, t) && Inv(t) && Inside(t, 0, 0) && Waits(t, 1, 0) && Inside(t, 1, 1) && Waits(t, 0, 1)
    ensures !CanEnter(t, 1, 0) && !CanEnter(t, 0, 1)
  {
    InitInv(s);
    ReachSelf(s);
    InitUnused(s);
    var a := TakesUnused(s, s, 0, 0);
    assert forall j: nat :: App(a, 1, j) == App(s, 1, j);
    var b := TakesUnused(s, a, 1, 1);
    assert App(b, 0, 0) == App(a, 0, 0) && App(b, 1, 0) == App(a, 1, 0) && App(b, 0, 1) == App(a, 0, 1);
    var c := AsksFor(s, b, 1, 0);
    assert App(c, 0, 0) == App(b, 0, 0) && App(c, 1, 1) == App(b, 1, 1) && App(c, 0, 1) == App(b, 0, 1);
    t := AsksFor(s, c, 0, 1);
    assert App(t, 0, 0) == App(c, 0, 0) && App(t, 1, 1) == App(c, 1, 1) && App(t, 1, 0) == App(c, 1, 0);
    CircleOfTwo(t);
    DeadlockIsForEver(t, 1, 0);
    DeadlockIsForEver(t, 0, 1);
  }

  lemma InitUnused(s: State)
    requires Init(s)
    ensures forall r: nat, k: nat :: App(s, r, k).Outside?
  {
    forall r: nat, k: nat ensures App(s, r, k).Outside? {
      assert r < |s.parts| ==> C.Init(s.parts[r]);
    }
  }
}
