/**
 Locks of several memories held at once. A process may ask for a memory while it is inside others;
 a lock is then stuck exactly when the holders wait for each other in a circle.
 */
module JointLocks {
  import opened Sums
  import opened Wakeups
  import opened SharedRegister
  import opened WaitingChains
  import C = Coherence

  // ---------------------------------------------------------------- who waits for whom

  ghost predicate Waits(s: State, r: nat, k: nat) {
    r < |s.parts| && k < |s.parts[r].clients| && InLock(s.parts[r].clients[k].app)
  }

  ghost predicate Inside(s: State, r: nat, k: nat) {
    r < |s.parts| && k < |s.parts[r].clients| && s.parts[r].clients[k].app.Inside?
  }

  // The memory that whoever is inside r is waiting for.
  ghost function Next(s: State, r: nat): (b: Blocker)
    requires WellFormed(s) && r < |s.parts|
    ensures b.For? ==> b.q < |s.parts|
  {
    var place := s.parts[r].place;
    if place.At? && Inside(s, r, place.k) && s.busy[place.k].Calling? && Waits(s, s.busy[place.k].r, place.k)
    then For(s.busy[place.k].r) else Nothing
  }

  ghost function Chains(s: State): (e: seq<Blocker>)
    requires WellFormed(s)
    ensures |e| == |s.parts| && Proper(e) && forall r :: 0 <= r < |e| ==> e[r] == Next(s, r)
  {
    seq(|s.parts|, r requires 0 <= r < |s.parts| => Next(s, r))
  }

  // Whoever is inside r is in, or waits for, a circle of holders that wait for each other.
  ghost predicate Deadlocked(s: State, r: nat)
    requires WellFormed(s)
  {
    Circular(Chains(s), r)
  }

  // ---------------------------------------------------------------- a circle stays

  lemma InsideIsHolder(s: State, r: nat, k: nat)
    requires Inv(s) && Inside(s, r, k)
    ensures s.parts[r].place == C.At(k)
  {
    assert C.InSection(s.parts[r], k);
    C.MutualExclusion(s.parts[r], k, k);
  }

  // Whoever waits for a memory that another is inside has not been given the token.
  lemma OnlyAsks(s: State, q: nat, j: nat, k: nat)
    requires Inv(s) && Inside(s, q, k) && Waits(s, q, j)
    ensures j != k && s.parts[q].clients[j].app.Asking? && s.parts[q].clients[j].given == 0
  {
    InsideIsHolder(s, q, k);
    assert C.Inv(s.parts[q]);
  }

  lemma InsideStays(p: C.State, l: C.Label, j: nat)
    requires C.Inv(p) && C.Enabled(p, l) && j < |p.clients| && p.clients[j].app.Inside? && l != C.Depart(j)
    ensures C.Apply(p, l).place == C.At(j) && j < |C.Apply(p, l).clients| && C.Apply(p, l).clients[j].app.Inside?
  {
    assert C.InSection(p, j);
    C.MutualExclusion(p, j, j);
  }

  lemma AsksOn(p: C.State, l: C.Label, j: nat)
    requires C.WellFormed(p) && C.Enabled(p, l) && j < |p.clients|
    requires p.clients[j].app.Asking? && p.clients[j].given == 0
    ensures j < |C.Apply(p, l).clients| && C.Apply(p, l).clients[j].app.Asking?
  {
  }

  // The holder of q, which waits for a memory w that another is inside.
  ghost predicate Blocked(s: State, q: nat, j: nat, w: nat, other: nat) {
    && Inside(s, q, j) && Waits(s, w, j) && Inside(s, w, other) && j < |s.busy| && s.busy[j] == Calling(w)
  }

  lemma BlockedOnlyAsks(s: State, x: Label, q: nat, j: nat, w: nat, other: nat)
    requires Inv(s) && Enabled(s, x) && Blocked(s, q, j, w, other)
    ensures s.parts[q].place == C.At(j) && s.parts[w].clients[j].app.Asking? && s.parts[w].clients[j].given == 0
    ensures x.l.k == j ==> !x.l.Ask? && !x.l.Depart? && !x.l.Enter? && !x.l.Return? && !x.l.Wake?
  {
    InsideIsHolder(s, q, j);
    OnlyAsks(s, w, j, other);
    assert OneCall(s.parts[w], s.busy, w) && OneCall(s.parts[x.r], s.busy, x.r);
  }

  lemma BlockedPartStays(s: State, x: Label, q: nat, j: nat, w: nat, other: nat)
    requires Inv(s) && Enabled(s, x) && Blocked(s, q, j, w, other)
    ensures var p := Part(s, x, q); p.place == C.At(j) && j < |p.clients| && p.clients[j].app.Inside?
  {
    BlockedOnlyAsks(s, x, q, j, w, other);
    if x.r == q {
      InsideStays(s.parts[q], x.l, j);
    }
  }

  lemma BlockedBusyStays(s: State, x: Label, q: nat, j: nat, w: nat, other: nat)
    requires Inv(s) && Enabled(s, x) && Blocked(s, q, j, w, other)
    ensures |Apply(s, x).busy| == |s.busy| && Apply(s, x).busy[j] == Calling(w)
    ensures j < |Part(s, x, w).clients| && Part(s, x, w).clients[j].app.Asking?
  {
    BlockedOnlyAsks(s, x, q, j, w, other);
    if x.r == w {
      AsksOn(s.parts[w], x.l, j);
    }
  }

  lemma BlockedStays(s: State, x: Label, q: nat, j: nat, w: nat, other: nat)
    requires Inv(s) && Enabled(s, x) && Blocked(s, q, j, w, other)
    ensures Inv(Apply(s, x)) && |Apply(s, x).parts| == |s.parts|
    ensures Chains(Apply(s, x))[q] == For(w)
  {
    StepKeeps(s, x);
    BlockedBusyStays(s, x, q, j, w, other);
    BlockedPartStays(s, x, q, j, w, other);
    assert Next(Apply(s, x), q) == For(w);
  }

  lemma ClosedMeansBlocked(s: State, d: set<nat>, q: nat)
    requires Inv(s) && Closed(Chains(s), d) && q in d
    ensures q < |s.parts| && Next(s, q).For? && Next(s, q).q in d
    ensures Blocked(s, q, s.parts[q].place.k, Next(s, q).q, s.parts[Next(s, q).q].place.k)
  {
    var w := Next(s, q).q;
    assert w in d && Next(s, w).For?;
  }

  lemma ClosedStays(s: State, x: Label, d: set<nat>)
    requires Inv(s) && Enabled(s, x) && Closed(Chains(s), d)
    ensures Inv(Apply(s, x)) && Closed(Chains(Apply(s, x)), d)
  {
    StepKeeps(s, x);
    forall q | q in d ensures q < |s.parts| && Chains(Apply(s, x))[q] == Chains(s)[q] {
      ClosedMeansBlocked(s, d, q);
      BlockedStays(s, x, q, s.parts[q].place.k, Next(s, q).q, s.parts[Next(s, q).q].place.k);
    }
  }

  lemma {:induction false} ClosedForEver(s: State, run: seq<Label>, d: set<nat>)
    requires Inv(s) && Runs(s, run) && Closed(Chains(s), d)
    ensures Inv(After(s, run)) && Closed(Chains(After(s, run)), d)
    decreases |run|
  {
    if run != [] {
      ClosedStays(s, run[0], d);
      ClosedForEver(Apply(s, run[0]), run[1..], d);
    }
  }

  // Client k enters memory r in some run of all memories together.
  ghost predicate CanEnter(s: State, r: nat, k: nat) {
    exists run :: Runs(s, run) && WellFormed(After(s, run)) && Enabled(After(s, run), On(r, C.Enter(k)))
  }

  lemma NobodyEnters(s: State, r: nat, j: nat, k: nat)
    requires Inv(s) && Inside(s, r, j)
    ensures !Enabled(s, On(r, C.Enter(k)))
  {
    if Waits(s, r, k) {
      OnlyAsks(s, r, k, j);
    }
  }

  lemma NobodyEntersCircle(s: State, d: set<nat>, r: nat, k: nat)
    requires Inv(s) && Closed(Chains(s), d) && r in d
    ensures !Enabled(s, On(r, C.Enter(k)))
  {
    ClosedMeansBlocked(s, d, r);
    NobodyEnters(s, r, s.parts[r].place.k, k);
  }

  lemma DeadlockIsForEver(s: State, r: nat, k: nat)
    requires Inv(s) && Deadlocked(s, r)
    ensures !CanEnter(s, r, k)
  {
    var d :| Closed(Chains(s), d) && r in d;
    forall run | Runs(s, run) && WellFormed(After(s, run)) ensures !Enabled(After(s, run), On(r, C.Enter(k))) {
      ClosedForEver(s, run, d);
      NobodyEntersCircle(After(s, run), d, r, k);
    }
  }
}
