/**
 How long a wait on the distributed semaphore takes when nobody calls anything any more, and how
 the token it waits for can be lost.
 */
module SemaphoreBound {
  import opened Sums
  import opened Wakeups
  import opened ClientTables
  import opened DistributedSemaphore

  // ---------------------------------------------------------------- losing a token

  // Away from k, every internal step but a wasteful one leaves the spare tokens of its site alone.
  lemma CarefulKeepsSpare(s: State, l: Label)
    requires Enabled(s, l) && Internal(l) && !l.Pass?
    ensures var x, y := s.sites[l.k], Moved(s, l);
      Spare(y) + One(l.Release?) + One(l.Compare? && x.register.Own? && !Takes(x)) == Spare(x)
  {
  }

  // At k, with no token before the comparison.
  lemma OwnStepKeepsSpare(s: State, l: Label)
    requires Enabled(s, l) && Internal(l) && !l.Pass? && Pre(s.sites[l.k]) == 0
    ensures var x, y := s.sites[l.k], Moved(s, l);
      Post(y) + y.leaving + One(l.Release?) == Post(x) + x.leaving && Pre(y) == 0
  {
  }

  // Only the balance decides: k has no token at hand.
  predicate EmptyHanded(x: Site) {
    x.given == 0 && !x.parent.Matched? && Pre(x) == 0
  }

  lemma OwnBalance(s: State, k: nat, l: Label)
    requires Enabled(s, l) && Internal(l) && !l.Pass? && l.k == k && Pre(s.sites[k]) == 0
    ensures var t := Apply(s, l);
      && |t.sites| == |s.sites| && t.current == s.current
      && Free(t, k) + Toll(s, k) == Free(s, k) + Toll(t, k)
  {
    OwnStepKeepsSpare(s, l);
    OneSiteChanges(s, l, k);
  }

  lemma OtherBalance(s: State, k: nat, l: Label)
    requires Enabled(s, l) && Internal(l) && !l.Pass? && k < |s.sites| && l.k != k
    ensures var t := Apply(s, l);
      && |t.sites| == |s.sites| && t.current == s.current
      && Free(t, k) + Toll(s, k) + One(Wasteful(s, k, l)) == Free(s, k) + Toll(t, k)
  {
    MovedKeepsSpare(s, l);
    CarefulKeepsSpare(s, l);
    OneSiteChanges(s, l, k);
  }

  lemma BalanceAfter(s: State, k: nat, l: Label)
    requires Enabled(s, l) && Internal(l) && k < |s.sites| && l != Pass(k) && EmptyHanded(s.sites[k])
    ensures var t := Apply(s, l);
      && |t.sites| == |s.sites| && t.current < |t.sites|
      && Free(t, k) + Toll(s, k) + One(Wasteful(s, k, l)) == Free(s, k) + Toll(t, k)
  {
    if l.Pass? {
      PassKeepsBalance(s, k, l.k);
    } else if l.k == k {
      OwnBalance(s, k, l);
    } else {
      OtherBalance(s, k, l);
    }
  }

  lemma TokenAtHandStays(s: State, k: nat, l: Label)
    requires Servable(s, k) && Enabled(s, l) && Internal(l) && l != Wake(k) && l != Done(k)
    requires !EmptyHanded(s.sites[k])
    ensures Servable(Apply(s, l), k)
  {
  }

  lemma TokenOnTheWayStays(s: State, k: nat, l: Label)
    requires Servable(s, k) && Enabled(s, l) && Internal(l) && l != Wake(k) && l != Done(k)
    requires EmptyHanded(s.sites[k])
    ensures Servable(Apply(s, l), k) <==> !(Wasteful(s, k, l) && Free(s, k) == Toll(s, k) + 1)
  {
    if l != Pass(k) {
      BalanceAfter(s, k, l);
    }
  }

  // Another application of the site ends its wait and clears the register, and with it the request.
  predicate Ousted(x: Site) {
    x.given == 0 && !x.parent.Matched?
  }

  lemma DoneOusts(s: State, k: nat)
    requires Servable(s, k) && Enabled(s, Done(k))
    ensures Servable(Apply(s, Done(k)), k) <==> !Ousted(s.sites[k])
  {
  }

  /** The internal steps by which a wait at k ceases to be servable are exactly two: a comparison at
      another site that wastes the last token left for it, and the end of another wait at k, which
      clears the request, while no token is matched or given there. */
  lemma LostExactly(s: State, k: nat, l: Label)
    requires Servable(s, k) && Enabled(s, l) && Internal(l) && l != Wake(k)
    ensures Servable(Apply(s, l), k) <==>
      && !(Wasteful(s, k, l) && EmptyHanded(s.sites[k]) && Free(s, k) == Toll(s, k) + 1)
      && !(l == Done(k) && Ousted(s.sites[k]))
  {
    if l == Done(k) {
      DoneOusts(s, k);
    } else if EmptyHanded(s.sites[k]) {
      TokenOnTheWayStays(s, k, l);
    } else {
      TokenAtHandStays(s, k, l);
    }
  }

  // Two applications of one site, one of which has its token and has yet to clear the register.
  ghost predicate OneIsDone(s: State) {
    && |s.sites| == 1 && s.current == 0
    && var x := s.sites[0];
       && x.register.Own? && x.asking == 1 && x.woken == 1 && x.given == 0 && x.parent.Empty?
  }

  lemma TwoAskAtOneSite(s: State) returns (t: State)
    requires Init(s) && s.releases == 2 && |s.sites| == 1
    ensures Reachable(s, t) && |t.sites| == 1 && t.current == 0 && t.releases == 1
    ensures t.sites[0].queue == 1 && t.sites[0] == Site(1, false, 0, Empty, 0, 0, false, 0, false, Own, 2, 0, 0)
  {
    ReachSelf(s);
    ReachOn(s, s, Ask(0));
    var a := Apply(s, Ask(0));
    ReachOn(s, a, Ask(0));
    var b := Apply(a, Ask(0));
    ReachOn(s, b, Pass(0));
    t := Apply(b, Pass(0));
  }

  lemma TokenIsMatched(s: State, b: State) returns (t: State)
    requires Reachable(s, b) && |b.sites| == 1 && b.current == 0 && b.releases == 1
    requires b.sites[0].queue == 1 && b.sites[0] == Site(1, false, 0, Empty, 0, 0, false, 0, false, Own, 2, 0, 0)
    ensures Reachable(s, t) && |t.sites| == 1 && t.current == 0 && t.releases == 1
    ensures t.sites[0] == Site(0, false, 0, Matched, 0, 0, false, 0, false, Own, 2, 0, 0)
  {
    ReachOn(s, b, Pull(0));
    var c := Apply(b, Pull(0));
    ReachOn(s, c, SendDown(0));
    var d := Apply(c, SendDown(0));
    ReachOn(s, d, ReceiveDown(0));
    var e := Apply(d, ReceiveDown(0));
    ReachOn(s, e, Compare(0));
    t := Apply(e, Compare(0));
  }

  lemma OneIsServed(s: State, c: State) returns (t: State)
    requires Reachable(s, c) && |c.sites| == 1 && c.current == 0 && c.releases == 1
    requires c.sites[0] == Site(0, false, 0, Matched, 0, 0, false, 0, false, Own, 2, 0, 0)
    ensures Reachable(s, t) && OneIsDone(t) && t.releases == 1
  {
    ReachOn(s, c, Deliver(0));
    var d := Apply(c, Deliver(0));
    ReachOn(s, d, Wake(0));
    t := Apply(d, Wake(0));
  }

  lemma SecondIsForgotten(t: State)
    requires OneIsDone(t) && Servable(t, 0)
    ensures Enabled(t, Done(0))
    ensures var u := Apply(t, Done(0)); |u.sites| == 1 && u.sites[0].asking == 1 && !CanServe(u, 0)
  {
    LostExactly(t, 0, Done(0));
    StepKeepsHonest(t, Done(0));
    ServedExactlyFrom(Apply(t, Done(0)), 0);
  }

  lemma OneUnitLeftServes(t: State)
    requires OneIsDone(t) && t.releases == 1
    ensures Servable(t, 0)
  {
    NothingBetween(t, 0);
  }

  /** The second way is one the code goes: from a value of two, two applications of one site wait, the
      first is served and ends its wait, and the second, for which a unit was left, is forgotten. */
  lemma EndOfWaitForgetsAnother(s: State) returns (t: State)
    requires Init(s) && s.releases == 2 && |s.sites| == 1
    ensures Reachable(s, t) && Servable(t, 0) && Enabled(t, Done(0))
    ensures var u := Apply(t, Done(0)); |u.sites| == 1 && u.sites[0].asking == 1 && !CanServe(u, 0)
  {
    var b := TwoAskAtOneSite(s);
    var c := TokenIsMatched(s, b);
    t := OneIsServed(s, c);
    OneUnitLeftServes(t);
    SecondIsForgotten(t);
  }

  // ---------------------------------------------------------------- a bound

  // Tokens that have yet to come to k, those about to be signalled included.
  ghost function AwayAt(s: State, k: nat, j: nat): nat
    requires k < |s.sites| && j < |s.sites|
  {
    var x := s.sites[j];
    Post(x) + x.leaving + if j == k then 0 else Pre(x) + One(x.parent.Matched?)
  }

  ghost function Aways(s: State, k: nat): (r: seq<nat>)
    requires k < |s.sites|
    ensures |r| == |s.sites| && forall j :: 0 <= j < |r| ==> r[j] == AwayAt(s, k, j)
  {
    seq(|s.sites|, j requires 0 <= j < |s.sites| => AwayAt(s, k, j))
  }

  ghost function Away(s: State, k: nat): nat
    requires k < |s.sites|
  {
    s.releases + Sum(Aways(s, k))
  }

  function Product(a: nat, b: nat): nat { a * b }

  // Each token that is away goes round at most once before it stays at k; each pass costs ten.
  ghost function Bound(s: State, k: nat): nat
    requires k < |s.sites| && s.current < |s.sites|
  {
    Product(Away(s, k), 10 * |s.sites|) + 10 * Turn(s.current, k, |s.sites|) + Work(s)
  }

  lemma MovedElsewhere(s: State, l: Label)
    requires Enabled(s, l) && Internal(l) && !l.Pass?
    ensures var x, y := s.sites[l.k], Moved(s, l);
      Post(y) + y.leaving + Pre(y) + One(y.parent.Matched?) + One(l.Release?)
        <= Post(x) + x.leaving + Pre(x) + One(x.parent.Matched?)
  {
  }

  lemma MovedAtOwn(s: State, l: Label)
    requires Enabled(s, l) && Internal(l) && !l.Pass? && s.sites[l.k].register.Own?
    ensures var x, y := s.sites[l.k], Moved(s, l);
      Post(y) + y.leaving + One(l.Release?) <= Post(x) + x.leaving
  {
  }

  lemma MovedAway(s: State, l: Label, k: nat)
    requires Enabled(s, l) && Internal(l) && !l.Pass? && k < |s.sites|
    requires l.k == k ==> s.sites[k].register.Own?
    ensures |Apply(s, l).sites| == |s.sites|
    ensures AwayAt(Apply(s, l), k, l.k) + One(l.Release?) <= AwayAt(s, k, l.k)
  {
    assert Apply(s, l).sites[l.k] == Moved(s, l);
    if l.k == k {
      MovedAtOwn(s, l);
    } else {
      MovedElsewhere(s, l);
    }
  }

  lemma StepAway(s: State, l: Label, k: nat)
    requires Enabled(s, l) && Internal(l) && !l.Pass? && k < |s.sites| && s.sites[k].register.Own?
    ensures |Apply(s, l).sites| == |s.sites| && Away(Apply(s, l), k) <= Away(s, k)
  {
    MovedAway(s, l, k);
    SumChangesAt(Aways(s, k), Aways(Apply(s, l), k), l.k);
  }

  lemma PassAway(s: State, j: nat, k: nat)
    requires Enabled(s, Pass(j)) && k < |s.sites|
    ensures |Apply(s, Pass(j)).sites| == |s.sites|
    ensures Away(Apply(s, Pass(j)), k) + One(j == k) == Away(s, k)
    ensures Work(Apply(s, Pass(j))) == Work(s) + 9
  {
    var t := Apply(s, Pass(j));
    SumChangesAt(Aways(s, k), Aways(t, k), j);
    SumChangesAt(Each(s.sites, SiteWork), Each(t.sites, SiteWork), j);
  }

  lemma TimesLess(a: nat, b: nat, c: nat)
    requires a <= b
    ensures Product(a, c) <= Product(b, c)
    ensures b == a + 1 ==> Product(b, c) == Product(a, c) + c
  {
  }

  lemma BoundFalls(s: State, k: nat, l: Label)
    requires Enabled(s, l) && Internal(l) && k < |s.sites| && s.sites[k].register.Own? && l != Wake(k) && l != Done(k)
    ensures var t := Apply(s, l);
      |t.sites| == |s.sites| && t.current < |t.sites| && t.sites[k].register.Own? && Bound(t, k) < Bound(s, k)
  {
    var t, c := Apply(s, l), 10 * |s.sites|;
    if l.Pass? {
      PassAway(s, l.k, k);
      TurnShifts(s.current, |s.sites|);
      TurnShifts(l.k, |s.sites|);
    } else {
      StepAway(s, l, k);
      WorkFalls(s, l);
    }
    TimesLess(Away(t, k), Away(s, k), c);
  }

  // A run without further calls in which the wait at k goes on, no other application of its site
  // ends its wait, and no token is wasted.
  ghost predicate Careful(s: State, run: seq<Label>, k: nat)
    requires Runs(s, run)
    decreases |run|
  {
    run == [] || (
      && Internal(run[0]) && run[0] != Wake(k) && run[0] != Done(k) && !Wasteful(s, k, run[0])
      && Careful(Apply(s, run[0]), run[1..], k))
  }

  lemma {:induction false} CarefulRunBounded(s: State, run: seq<Label>, k: nat)
    requires Honest(s) && Servable(s, k) && s.sites[k].register.Own? && Runs(s, run) && Careful(s, run, k)
    ensures var t := After(s, run);
      Honest(t) && Servable(t, k) && t.sites[k].register.Own? && |run| + Bound(t, k) <= Bound(s, k)
    decreases |run|
  {
    if run != [] {
      StepKeepsHonest(s, run[0]);
      BoundFalls(s, k, run[0]);
      LostExactly(s, k, run[0]);
      CarefulRunBounded(Apply(s, run[0]), run[1..], k);
    }
  }

  // The only ways to go on from here are to serve k, to end the call of another application of its
  // site, or to waste a token.
  ghost predicate AtItsEnd(s: State, k: nat) {
    forall l :: Enabled(s, l) && Internal(l) ==> l == Wake(k) || l == Done(k) || Wasteful(s, k, l)
  }

  lemma EndServes(s: State, k: nat)
    requires Honest(s) && Servable(s, k) && AtItsEnd(s, k)
    ensures Enabled(s, Wake(k))
  {
    if s.sites[k].given == 0 {
      var l := NearerStep(s, k);
    }
  }

  /** From a reachable state in which the request of k stands and it can be served, every run without
      further calls, in which no other application of the site ends its wait and no token is wasted,
      has at most `Bound` steps, and where it cannot go on the wait at k is let through. */
  lemma WaitServedWithinBound(start: State, past: seq<Label>, run: seq<Label>, k: nat)
    requires Init(start) && Runs(start, past) && k < |start.sites|
    requires Servable(After(start, past), k) && After(start, past).sites[k].register.Own?
    requires Runs(After(start, past), run) && Careful(After(start, past), run, k)
    ensures |run| <= Bound(After(start, past), k)
    ensures AtItsEnd(After(After(start, past), run), k) ==> Enabled(After(After(start, past), run), Wake(k))
  {
    var s := After(start, past);
    InitHonest(start);
    RunKeepsHonest(start, past);
    CarefulRunBounded(s, run, k);
    if AtItsEnd(After(s, run), k) {
      EndServes(After(s, run), k);
    }
  }

  // One application of the site waits, and no other is inside `wait_on`.
  ghost predicate WaitsAlone(s: State, k: nat) {
    k < |s.sites| && s.sites[k].asking == 1 && s.sites[k].woken == 0
  }

  // Only what other sites do can go wrong.
  ghost predicate Thrifty(s: State, run: seq<Label>, k: nat)
    requires Runs(s, run)
    decreases |run|
  {
    run == [] || (
      && Internal(run[0]) && run[0] != Wake(k) && !Wasteful(s, k, run[0])
      && Thrifty(Apply(s, run[0]), run[1..], k))
  }

  lemma {:induction false} AloneIsCareful(s: State, run: seq<Label>, k: nat)
    requires WaitsAlone(s, k) && Runs(s, run) && Thrifty(s, run, k)
    ensures Careful(s, run, k) && WaitsAlone(After(s, run), k)
    decreases |run|
  {
    if run != [] {
      AloneIsCareful(Apply(s, run[0]), run[1..], k);
    }
  }

  /** With a single calling process per site nothing is asked of its own site: every run without
      further calls that wastes no token has at most `Bound` steps, and where nothing but serving k or
      wasting a token is left to do, the wait is let through. */
  lemma SingleWaitServedWithinBound(start: State, past: seq<Label>, run: seq<Label>, k: nat)
    requires Init(start) && Runs(start, past) && WaitsAlone(After(start, past), k) && Servable(After(start, past), k)
    requires After(start, past).sites[k].register.Own?
    requires Runs(After(start, past), run) && Thrifty(After(start, past), run, k)
    ensures |run| <= Bound(After(start, past), k)
    ensures var t := After(After(start, past), run);
      (forall l :: Enabled(t, l) && Internal(l) ==> l == Wake(k) || Wasteful(t, k, l)) ==> Enabled(t, Wake(k))
  {
    RunConserves(start, past);
    AloneIsCareful(After(start, past), run, k);
    WaitServedWithinBound(start, past, run, k);
  }
}
