/**
 Progress of all memories together: who can still enter, in how many moves, and when nobody is
 ever stuck.
 */
module JointProgress {
  import opened Sums
  import opened Wakeups
  import opened SharedRegister
  import opened WaitingChains
  import opened JointLocks
  import C = Coherence

  // ---------------------------------------------------------------- the work left

  // Moves of its memory's token before client k has entered and left, without another call.
  ghost function ClientWork(p: C.State, k: nat): nat
    requires C.WellFormed(p) && k < |p.clients|
  {
    match p.clients[k].app
    case Outside => 0
    case Leaving => 1
    case Inside => 2
    case _ => C.Distance(p, k) + 3
  }

  ghost function ClientWorks(p: C.State): (r: seq<nat>)
    requires C.WellFormed(p)
    ensures |r| == |p.clients| && forall k :: 0 <= k < |r| ==> r[k] == ClientWork(p, k)
  {
    seq(|p.clients|, k requires 0 <= k < |p.clients| => ClientWork(p, k))
  }

  ghost function PartWork(p: C.State): nat {
    if C.WellFormed(p) then Sum(ClientWorks(p)) else 0
  }

  ghost function PartWorks(s: State): (r: seq<nat>)
    ensures |r| == |s.parts| && forall q :: 0 <= q < |r| ==> r[q] == PartWork(s.parts[q])
  {
    seq(|s.parts|, q requires 0 <= q < |s.parts| => PartWork(s.parts[q]))
  }

  ghost function JointWork(s: State): nat {
    Sum(PartWorks(s))
  }

  // All requests of a memory stand.
  ghost predicate AllStand(p: C.State) {
    C.Inv(p) && forall k :: 0 <= k < |p.clients| && InLock(p.clients[k].app) ==> C.Standing(p, k)
  }

  // A client waits for the memory.
  ghost predicate Wanted(p: C.State) {
    exists k :: 0 <= k < |p.clients| && InLock(p.clients[k].app)
  }

  predicate EndsPart(l: C.Label) {
    l.Enter? || l.Depart? || l.Return?
  }

  // Steps without a new request, and without overwriting one.
  ghost predicate Gentle(p: C.State, l: C.Label) {
    !l.Ask? && (l.Disturb? && l.k < |p.clients| ==> !InLock(p.clients[l.k].app))
  }

  lemma {:induction false} SumAtMost(xs: seq<nat>, ys: seq<nat>)
    requires |xs| == |ys| && forall i :: 0 <= i < |xs| ==> ys[i] <= xs[i]
    ensures Sum(ys) <= Sum(xs)
  {
    if xs != [] {
      SumAtMost(xs[1..], ys[1..]);
    }
  }

  lemma {:induction false} SumLess(xs: seq<nat>, ys: seq<nat>, j: nat)
    requires |xs| == |ys| && j < |xs| && ys[j] < xs[j] && forall i :: 0 <= i < |xs| ==> ys[i] <= xs[i]
    ensures Sum(ys) < Sum(xs)
  {
    if j == 0 {
      SumAtMost(xs[1..], ys[1..]);
    } else {
      SumLess(xs[1..], ys[1..], j - 1);
    }
  }

  lemma WaiterWorkFalls(p: C.State, l: C.Label, k: nat)
    requires AllStand(p) && C.Enabled(p, l) && Gentle(p, l) && k < |p.clients|
    requires InLock(p.clients[k].app) && l != C.Enter(k)
    ensures var t := C.Apply(p, l);
      && C.Inv(t) && |t.clients| == |p.clients|
      && ClientWork(t, k) + One(C.MovesToken(l)) <= ClientWork(p, k)
  {
    C.StepKeeps(p, l);
    C.StepComesNearer(p, k, l);
    C.StepKeepsStanding(p, k, l);
  }

  lemma CallerWorkFalls(p: C.State, l: C.Label)
    requires AllStand(p) && C.Enabled(p, l) && EndsPart(l)
    ensures var t := C.Apply(p, l);
      C.Inv(t) && |t.clients| == |p.clients| && ClientWork(t, l.k) < ClientWork(p, l.k)
  {
    C.StepKeeps(p, l);
  }

  lemma IdleAppStays(p: C.State, l: C.Label, k: nat)
    requires C.WellFormed(p) && C.Enabled(p, l) && !l.Ask? && k < |p.clients|
    requires !InLock(p.clients[k].app) && !(k == l.k && EndsPart(l))
    ensures |C.Apply(p, l).clients| == |p.clients| && C.Apply(p, l).clients[k].app == p.clients[k].app
  {
  }

  lemma IdleWorkStays(p: C.State, l: C.Label, k: nat)
    requires AllStand(p) && C.Enabled(p, l) && Gentle(p, l) && k < |p.clients|
    requires !InLock(p.clients[k].app) && !(k == l.k && EndsPart(l))
    ensures var t := C.Apply(p, l);
      C.Inv(t) && |t.clients| == |p.clients| && ClientWork(t, k) == ClientWork(p, k)
  {
    C.StepKeeps(p, l);
    IdleAppStays(p, l, k);
  }

  // What a step of a memory does to the work of its clients.
  lemma ClientWorkFalls(p: C.State, l: C.Label, k: nat)
    requires AllStand(p) && C.Enabled(p, l) && Gentle(p, l) && k < |p.clients|
    ensures var t := C.Apply(p, l);
      && C.Inv(t) && |t.clients| == |p.clients| && ClientWork(t, k) <= ClientWork(p, k)
      && (InLock(p.clients[k].app) && C.MovesToken(l) ==> ClientWork(t, k) < ClientWork(p, k))
      && (k == l.k && EndsPart(l) ==> ClientWork(t, k) < ClientWork(p, k))
  {
    if k == l.k && EndsPart(l) {
      CallerWorkFalls(p, l);
    } else if InLock(p.clients[k].app) {
      WaiterWorkFalls(p, l, k);
    } else {
      IdleWorkStays(p, l, k);
    }
  }

  // The step uses up work: it moves a token that is waited for, or a call comes to its end.
  ghost predicate Uses(p: C.State, l: C.Label) {
    EndsPart(l) || (C.MovesToken(l) && Wanted(p))
  }

  lemma NoClientGains(p: C.State, l: C.Label)
    requires AllStand(p) && C.Enabled(p, l) && Gentle(p, l)
    ensures var t := C.Apply(p, l);
      && C.Inv(t) && |t.clients| == |p.clients|
      && forall k :: 0 <= k < |p.clients| ==> ClientWorks(t)[k] <= ClientWorks(p)[k]
  {
    var t := C.Apply(p, l);
    C.StepKeeps(p, l);
    forall k | 0 <= k < |p.clients| ensures ClientWorks(t)[k] <= ClientWorks(p)[k] {
      ClientWorkFalls(p, l, k);
    }
  }

  // Some client has less left than before.
  lemma SomeClientLoses(p: C.State, l: C.Label) returns (k: nat)
    requires AllStand(p) && C.Enabled(p, l) && Gentle(p, l) && Uses(p, l)
    ensures var t := C.Apply(p, l);
      C.Inv(t) && |t.clients| == |p.clients| && k < |p.clients| && ClientWork(t, k) < ClientWork(p, k)
  {
    if EndsPart(l) {
      k := l.k;
    } else {
      k :| 0 <= k < |p.clients| && InLock(p.clients[k].app);
    }
    ClientWorkFalls(p, l, k);
  }

  lemma PartWorkFalls(p: C.State, l: C.Label)
    requires AllStand(p) && C.Enabled(p, l) && Gentle(p, l)
    ensures C.Inv(C.Apply(p, l)) && PartWork(C.Apply(p, l)) + One(Uses(p, l)) <= PartWork(p)
  {
    var t := C.Apply(p, l);
    NoClientGains(p, l);
    if Uses(p, l) {
      var k := SomeClientLoses(p, l);
      SumLess(ClientWorks(p), ClientWorks(t), k);
    } else {
      SumAtMost(ClientWorks(p), ClientWorks(t));
    }
  }

  lemma PartStands(s: State, q: nat)
    requires Inv(s) && q < |s.parts|
    ensures AllStand(s.parts[q])
  {
    assert OneCall(s.parts[q], s.busy, q);
  }

  // A step that uses up work of all memories together.
  ghost predicate Useful(s: State, x: Label) {
    x.r < |s.parts| && Uses(s.parts[x.r], x.l)
  }

  // The other memories see at most their register touched, where nobody waits.
  lemma OtherPartGentle(s: State, x: Label, q: nat)
    requires Inv(s) && Enabled(s, x) && q < |s.parts| && Touches(x.l) && (q != x.r || x.l.Disturb?)
    ensures Gentle(s.parts[q], Seen(x.l)) && C.Enabled(s.parts[q], Seen(x.l))
  {
    assert OneCall(s.parts[q], s.busy, q) && OneCall(s.parts[x.r], s.busy, x.r);
  }

  lemma PartWorkOfStep(s: State, x: Label, q: nat)
    requires Inv(s) && Enabled(s, x) && !x.l.Ask? && q < |s.parts|
    ensures PartWork(Part(s, x, q)) + One(q == x.r && Useful(s, x)) <= PartWork(s.parts[q])
  {
    PartStands(s, q);
    if q == x.r {
      if x.l.Disturb? {
        OtherPartGentle(s, x, q);
      }
      PartWorkFalls(s.parts[q], x.l);
    } else if Touches(x.l) {
      OtherPartGentle(s, x, q);
      PartWorkFalls(s.parts[q], Seen(x.l));
    }
  }

  lemma JointWorkFalls(s: State, x: Label)
    requires Inv(s) && Enabled(s, x) && !x.l.Ask?
    ensures JointWork(Apply(s, x)) + One(Useful(s, x)) <= JointWork(s)
  {
    var t := Apply(s, x);
    forall q | 0 <= q < |s.parts| ensures PartWorks(t)[q] + One(q == x.r && Useful(s, x)) <= PartWorks(s)[q] {
      PartWorkOfStep(s, x, q);
    }
    if Useful(s, x) {
      SumLess(PartWorks(s), PartWorks(t), x.r);
    } else {
      SumAtMost(PartWorks(s), PartWorks(t));
    }
  }

  lemma {:induction false} SumBounded(xs: seq<nat>, b: nat)
    requires forall i :: 0 <= i < |xs| ==> xs[i] <= b
    ensures Sum(xs) <= |xs| * b
  {
    if xs != [] {
      SumBounded(xs[1..], b);
      assert |xs| * b == (|xs| - 1) * b + b;
    }
  }

  // For n sites and memories of at most c blocks.
  function ClientBound(n: nat, c: nat): nat {
    4 * c + 17 + n * (4 * c + 15)
  }

  lemma Grows(n: nat, a: nat, b: nat)
    requires a <= b
    ensures n * a <= n * b
  {
  }

  lemma ClientWorkBounded(p: C.State, k: nat, c: nat)
    requires C.Inv(p) && k < |p.clients| && p.count <= c
    ensures ClientWork(p, k) <= ClientBound(|p.clients|, c)
  {
    C.DistanceBounded(p, k);
    Grows(|p.clients|, 4 * p.count + 15, 4 * c + 15);
  }

  /** The work of m memories of at most c blocks on n sites is at most m n (4c + 17 + n (4c + 15)). */
  lemma JointWorkBounded(s: State, c: nat)
    requires Inv(s) && forall q :: 0 <= q < |s.parts| ==> s.parts[q].count <= c
    ensures JointWork(s) <= |s.parts| * (|s.busy| * ClientBound(|s.busy|, c))
  {
    var b := |s.busy| * ClientBound(|s.busy|, c);
    forall q | 0 <= q < |s.parts| ensures PartWorks(s)[q] <= b {
      var p := s.parts[q];
      forall k | 0 <= k < |p.clients| ensures ClientWorks(p)[k] <= ClientBound(|s.busy|, c) {
        ClientWorkBounded(p, k, c);
      }
      SumBounded(ClientWorks(p), ClientBound(|s.busy|, c));
    }
    SumBounded(PartWorks(s), b);
  }

  ghost predicate NoNewCalls(run: seq<Label>) {
    forall i :: 0 <= i < |run| ==> !run[i].l.Ask?
  }

  ghost function UsefulSteps(s: State, run: seq<Label>): nat
    requires Runs(s, run)
    decreases |run|
  {
    if run == [] then 0 else One(Useful(s, run[0])) + UsefulSteps(Apply(s, run[0]), run[1..])
  }

  lemma {:induction false} RunUsesWork(s: State, run: seq<Label>)
    requires Inv(s) && Runs(s, run) && NoNewCalls(run)
    ensures Inv(After(s, run)) && UsefulSteps(s, run) + JointWork(After(s, run)) <= JointWork(s)
    decreases |run|
  {
    if run != [] {
      StepKeeps(s, run[0]);
      JointWorkFalls(s, run[0]);
      forall i | 0 <= i < |run[1..]| ensures !run[1..][i].l.Ask? {
        assert run[1..][i] == run[i + 1];
      }
      RunUsesWork(Apply(s, run[0]), run[1..]);
    }
  }

  // ---------------------------------------------------------------- a useful step

  // At the end of a chain: somebody waits for r, and whoever is inside it is in no other lock.
  lemma EndMoves(s: State, r: nat, k: nat) returns (x: Label)
    requires Inv(s) && Waits(s, r, k) && Next(s, r).Nothing?
    ensures Enabled(s, x) && Useful(s, x) && !x.l.Ask?
  {
    var p := s.parts[r];
    var l := C.NextStep(p);
    C.TokenNeverStuck(p);
    assert Wanted(p);
    x := On(r, l);
    if l.Depart? && s.busy[l.k].Calling? {
      var q := s.busy[l.k].r;
      assert p.place == C.At(l.k) && Inside(s, r, l.k);
      assert OneCall(s.parts[q], s.busy, q);
      x := On(q, C.Return(l.k));
    }
  }

  lemma {:induction false} ChainMoves(s: State, r: nat, k: nat, n: nat) returns (x: Label)
    requires Inv(s) && Waits(s, r, k) && EndsWithin(Chains(s), r, n)
    ensures Enabled(s, x) && Useful(s, x) && !x.l.Ask?
    decreases n
  {
    if Next(s, r).Nothing? {
      x := EndMoves(s, r, k);
    } else {
      x := ChainMoves(s, Next(s, r).q, s.parts[r].place.k, n - 1);
    }
  }

  // How a step of a memory moves its applications.
  lemma AppMoves(p: C.State, l: C.Label, j: nat)
    requires C.WellFormed(p) && C.Enabled(p, l) && j < |p.clients|
    ensures j < |C.Apply(p, l).clients|
    ensures var a, b := p.clients[j].app, C.Apply(p, l).clients[j].app;
      && (InLock(b) ==> (InLock(a) && l != C.Enter(j)) || l == C.Ask(j))
      && (b.Inside? ==> a.Inside? || l == C.Enter(j))
  {
  }

  lemma PartAppMoves(s: State, x: Label, q: nat, j: nat)
    requires WellFormed(s) && Enabled(s, x) && q < |s.parts| && j < |Part(s, x, q).clients|
    ensures j < |s.parts[q].clients|
    ensures var a, b := s.parts[q].clients[j].app, Part(s, x, q).clients[j].app;
      && (InLock(b) ==> (InLock(a) && x != On(q, C.Enter(j))) || x == On(q, C.Ask(j)))
      && (b.Inside? ==> a.Inside? || x == On(q, C.Enter(j)))
  {
    if q == x.r {
      AppMoves(s.parts[q], x.l, j);
    } else if Touches(x.l) {
      AppMoves(s.parts[q], Seen(x.l), j);
    }
  }

  // Without a new call nobody begins to wait.
  lemma WaitsBefore(s: State, x: Label, q: nat, j: nat)
    requires Inv(s) && Enabled(s, x) && Waits(Apply(s, x), q, j) && x != On(q, C.Ask(j))
    ensures Waits(s, q, j) && x != On(q, C.Enter(j))
  {
    PartAppMoves(s, x, q, j);
  }

  lemma InsideBefore(s: State, x: Label, q: nat, j: nat)
    requires Inv(s) && Enabled(s, x) && Inside(Apply(s, x), q, j) && x != On(q, C.Enter(j))
    ensures Inside(s, q, j)
  {
    PartAppMoves(s, x, q, j);
  }

  lemma BusyBefore(s: State, x: Label, w: nat, j: nat)
    requires Inv(s) && Enabled(s, x) && Waits(s, w, j)
    ensures j < |s.busy| && s.busy[j] == Calling(w)
  {
    assert OneCall(s.parts[w], s.busy, w);
  }

  lemma EdgesOnlyVanish(s: State, x: Label, q: nat)
    requires Inv(s) && Enabled(s, x) && !x.l.Ask? && q < |s.parts|
    ensures Inv(Apply(s, x)) && |Apply(s, x).parts| == |s.parts|
    ensures Next(Apply(s, x), q).Nothing? || Next(Apply(s, x), q) == Next(s, q)
  {
    var t := Apply(s, x);
    StepKeeps(s, x);
    if Next(t, q).For? {
      var j, w := t.parts[q].place.k, Next(t, q).q;
      WaitsBefore(s, x, w, j);
      BusyBefore(s, x, w, j);
      assert x != On(q, C.Enter(j));
      InsideBefore(s, x, q, j);
      InsideIsHolder(s, q, j);
    }
  }

  lemma EndsStays(s: State, x: Label, r: nat, n: nat)
    requires Inv(s) && Enabled(s, x) && !x.l.Ask? && r < |s.parts| && EndsWithin(Chains(s), r, n)
    ensures Inv(Apply(s, x)) && |Apply(s, x).parts| == |s.parts| && EndsWithin(Chains(Apply(s, x)), r, n)
  {
    var t := Apply(s, x);
    StepKeeps(s, x);
    forall q | 0 <= q < |s.parts| ensures Chains(t)[q].Nothing? || Chains(t)[q] == Chains(s)[q] {
      EdgesOnlyVanish(s, x, q);
    }
    FewerWait(Chains(s), Chains(t), r, n);
  }

  // ---------------------------------------------------------------- who can enter

  lemma EntersLater(s: State, x: Label, r: nat, k: nat)
    requires WellFormed(s) && Enabled(s, x) && CanEnter(Apply(s, x), r, k)
    ensures CanEnter(s, r, k)
  {
    var t := Apply(s, x);
    var run :| Runs(t, run) && WellFormed(After(t, run)) && Enabled(After(t, run), On(r, C.Enter(k)));
    var longer := [x] + run;
    assert longer[1..] == run;
    assert Runs(s, longer) && After(s, longer) == After(t, run);
  }

  lemma {:induction false} EndingEnters(s: State, r: nat, k: nat)
    requires Inv(s) && Waits(s, r, k) && EndsWithin(Chains(s), r, |s.parts|)
    ensures CanEnter(s, r, k)
    decreases JointWork(s)
  {
    if Enabled(s, On(r, C.Enter(k))) {
      var none: seq<Label> := [];
      assert Runs(s, none) && Enabled(After(s, none), On(r, C.Enter(k)));
    } else {
      var x := ChainMoves(s, r, k, |s.parts|);
      StaysInLock(s, x, r, k);
      EndsStays(s, x, r, |s.parts|);
      JointWorkFalls(s, x);
      EndingEnters(Apply(s, x), r, k);
      EntersLater(s, x, r, k);
    }
  }

  /** In every reachable state of all memories together a client inside `lock` can still enter exactly
      unless whoever is inside its memory is in, or waits for, a circle of holders that wait for
      each other. */
  lemma EntersExactlyUnlessDeadlocked(start: State, past: seq<Label>, r: nat, k: nat)
    requires Init(start) && Runs(start, past) && Waits(After(start, past), r, k)
    ensures Inv(After(start, past))
    ensures CanEnter(After(start, past), r, k) <==> !Deadlocked(After(start, past), r)
  {
    var s := After(start, past);
    InitInv(start);
    RunKeeps(start, past);
    EndsExactlyUnlessCircular(Chains(s), r);
    if Deadlocked(s, r) {
      DeadlockIsForEver(s, r, k);
    } else {
      EndingEnters(s, r, k);
    }
  }

  // ---------------------------------------------------------------- asking in ascending order

  // Whoever waits for a memory is inside smaller ones only.
  ghost predicate Ascending(s: State) {
    forall k, r, q :: Inside(s, r, k) && Waits(s, q, k) ==> r < q
  }

  ghost predicate AsksUpward(s: State, x: Label) {
    x.l.Ask? ==> forall r: nat :: Inside(s, r, x.l.k) ==> r < x.r
  }

  ghost predicate AscendingRun(s: State, run: seq<Label>)
    requires Runs(s, run)
    decreases |run|
  {
    run == [] || (AsksUpward(s, run[0]) && AscendingRun(Apply(s, run[0]), run[1..]))
  }

  lemma EnteredWaitsNowhere(s: State, r: nat, q: nat, k: nat)
    requires Inv(s) && Enabled(s, On(r, C.Enter(k))) && Waits(s, q, k)
    ensures q == r
  {
    assert OneCall(s.parts[r], s.busy, r) && OneCall(s.parts[q], s.busy, q);
  }

  lemma StepKeepsAscending(s: State, x: Label)
    requires Inv(s) && Ascending(s) && Enabled(s, x) && AsksUpward(s, x)
    ensures Ascending(Apply(s, x))
  {
    var t := Apply(s, x);
    forall k: nat, r: nat, q: nat | Inside(t, r, k) && Waits(t, q, k) ensures r < q {
      if x == On(q, C.Ask(k)) {
        InsideBefore(s, x, r, k);
      } else {
        WaitsBefore(s, x, q, k);
        if x == On(r, C.Enter(k)) {
          EnteredWaitsNowhere(s, r, q, k);
        } else {
          InsideBefore(s, x, r, k);
        }
      }
    }
  }

  lemma {:induction false} RunKeepsAscending(s: State, run: seq<Label>)
    requires Inv(s) && Ascending(s) && Runs(s, run) && AscendingRun(s, run)
    ensures Inv(After(s, run)) && Ascending(After(s, run))
    decreases |run|
  {
    if run != [] {
      StepKeepsAscending(s, run[0]);
      StepKeeps(s, run[0]);
      RunKeepsAscending(Apply(s, run[0]), run[1..]);
    }
  }

  lemma AscendingChainsEnd(s: State, r: nat)
    requires Inv(s) && Ascending(s) && r < |s.parts|
    ensures EndsWithin(Chains(s), r, |s.parts|)
  {
    forall q | 0 <= q < |s.parts| && Chains(s)[q].For? ensures Chains(s)[q].q > q {
      assert Inside(s, q, s.parts[q].place.k) && Waits(s, Next(s, q).q, s.parts[q].place.k);
    }
    AscendingEnds(Chains(s), r, |s.parts|);
  }

  lemma InitAscending(s: State)
    requires Init(s)
    ensures Ascending(s)
  {
    forall r: nat, k: nat ensures !Inside(s, r, k) {
      assert r < |s.parts| ==> C.Init(s.parts[r]);
    }
  }

  /** When every process asks only for memories numbered above those it is inside, every client inside
      `lock` can enter, in every reachable state of all memories together. */
  lemma AscendingLocksEnter(start: State, past: seq<Label>, r: nat, k: nat)
    requires Init(start) && Runs(start, past) && AscendingRun(start, past) && Waits(After(start, past), r, k)
    ensures CanEnter(After(start, past), r, k)
  {
    InitInv(start);
    InitAscending(start);
    RunKeepsAscending(start, past);
    AscendingChainsEnd(After(start, past), r);
    EndingEnters(After(start, past), r, k);
  }

  /** And then nothing is ever stuck: as long as somebody is inside `lock` some step is possible that
      uses up work, and over every run without new calls there are at most `JointWork` of them; so
      where no more are possible everybody has entered. */
  lemma AscendingLocksReturn(start: State, past: seq<Label>, run: seq<Label>)
    requires Init(start) && Runs(start, past) && AscendingRun(start, past)
    requires Runs(After(start, past), run) && NoNewCalls(run)
    ensures UsefulSteps(After(start, past), run) <= JointWork(After(start, past))
    ensures var t := After(After(start, past), run);
      && Inv(t)
      && forall r, k :: Waits(t, r, k) ==> exists x :: Enabled(t, x) && Useful(t, x) && !x.l.Ask?
  {
    var s := After(start, past);
    InitInv(start);
    InitAscending(start);
    RunKeepsAscending(start, past);
    RunUsesWork(s, run);
    NoCallsAscend(s, run);
    RunKeepsAscending(s, run);
    var t := After(s, run);
    forall r: nat, k: nat | Waits(t, r, k) ensures exists x :: Enabled(t, x) && Useful(t, x) && !x.l.Ask? {
      AscendingChainsEnd(t, r);
      var x := ChainMoves(t, r, k, |t.parts|);
    }
  }

  lemma {:induction false} NoCallsAscend(s: State, run: seq<Label>)
    requires Runs(s, run) && NoNewCalls(run)
    ensures AscendingRun(s, run)
    decreases |run|
  {
    if run != [] {
      assert !run[0].l.Ask?;
      forall i | 0 <= i < |run[1..]| ensures !run[1..][i].l.Ask? {
        assert run[1..][i] == run[i + 1];
      }
      NoCallsAscend(Apply(s, run[0]), run[1..]);
    }
  }
}
