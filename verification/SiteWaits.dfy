/**
 When a `wait_on` in progress can still be let through, with all memories and semaphores of the
 sites at work and one calling process per site.
 */
module SiteWaits {
  import opened Wakeups
  import opened Sums
  import opened SiteRequests
  import R = SharedRegister
  import C = Coherence
  import D = DistributedSemaphore

  // A step that begins no call on semaphore i; every other call may begin.
  predicate Apart(x: Label, i: nat) {
    x.Sem? && x.i == i ==> !x.d.Ask? && !x.d.StartSignal?
  }

  ghost predicate RunApart(run: seq<Label>, i: nat) {
    forall j :: 0 <= j < |run| ==> Apart(run[j], i)
  }

  ghost predicate Woken(s: State, run: seq<Label>, i: nat, k: nat) {
    Runs(s, run) && WellFormed(After(s, run)) && Enabled(After(s, run), Sem(i, D.Wake(k)))
  }

  ghost predicate CanServe(s: State, i: nat, k: nat) {
    exists run :: RunApart(run, i) && Woken(s, run, i, k)
  }

  ghost predicate InvAt(s: State, i: nat) {
    Inv(s) && i < |s.sems| && D.Honest(s.sems[i])
  }

  lemma StepKeepsAt(s: State, x: Label, i: nat)
    requires InvAt(s, i) && Enabled(s, x)
    ensures InvAt(Apply(s, x), i) && |Apply(s, x).sems| == |s.sems|
  {
    StepKeeps(s, x);
    if x.Sem? && x.i == i {
      D.StepKeepsHonest(s.sems[i], x.d);
    } else if Touches(x) {
      D.StepKeepsHonest(s.sems[i], D.Disturb(Site(x), if Writes(x) then D.Other else D.Clear));
    }
  }

  lemma {:induction false} RunKeepsAt(s: State, run: seq<Label>, i: nat)
    requires InvAt(s, i) && Runs(s, run)
    ensures InvAt(After(s, run), i) && |After(s, run).busy| == |s.busy|
    decreases |run|
  {
    if run != [] {
      StepKeepsAt(s, run[0], i);
      RunKeepsAt(Apply(s, run[0]), run[1..], i);
    }
  }

  // ---------------------------------------------------------------- what others do changes nothing

  // A register that does not name the semaphore may as well name something else.
  lemma DisturbedBalance(p: D.State, j: nat, r: D.Register, k: nat)
    requires p.current < |p.sites| && j < |p.sites| && k < |p.sites| && !r.Own? && !p.sites[j].register.Own?
    ensures var q := D.Apply(p, D.Disturb(j, r));
      |q.sites| == |p.sites| && q.current == p.current && D.Free(q, k) == D.Free(p, k) && D.Toll(q, k) == D.Toll(p, k)
  {
    D.OneSiteChanges(p, D.Disturb(j, r), k);
  }

  lemma DisturbedSite(p: D.State, j: nat, r: D.Register, k: nat)
    requires p.current < |p.sites| && j < |p.sites| && k < |p.sites| && !r.Own? && !p.sites[j].register.Own?
    ensures |D.Apply(p, D.Disturb(j, r)).sites| == |p.sites|
    ensures var x, y := p.sites[k], D.Apply(p, D.Disturb(j, r)).sites[k];
      && y.asking == x.asking && y.given == x.given && y.parent == x.parent && D.Pre(y) == D.Pre(x)
      && y.register.Own? == x.register.Own?
  {
  }

  lemma DisturbedElsewhere(p: D.State, j: nat, r: D.Register, k: nat)
    requires p.current < |p.sites| && j < |p.sites| && k < |p.sites| && !r.Own? && !p.sites[j].register.Own?
    ensures D.Servable(D.Apply(p, D.Disturb(j, r)), k) <==> D.Servable(p, k)
  {
    DisturbedBalance(p, j, r, k);
    DisturbedSite(p, j, r, k);
  }

  // Who touches the register for something else is in no call on semaphore i.
  lemma TouchesNoRequest(s: State, x: Label, i: nat)
    requires InvAt(s, i) && Enabled(s, x) && Touches(x) && !(x.Sem? && x.i == i)
    ensures Site(x) < |s.sems[i].sites| && !s.sems[i].sites[Site(x)].register.Own?
  {
    TouchedIsFree(s, x);
    assert SemOk(s.sems[i], s.busy, i);
    assert SiteOk(s.sems[i].sites[Site(x)], s.busy[Site(x)], i);
  }

  lemma UnservableStays(s: State, x: Label, i: nat, k: nat)
    requires InvAt(s, i) && Enabled(s, x) && Apart(x, i) && k < |s.busy| && !D.Servable(s.sems[i], k)
    ensures !D.Servable(SemPart(s, x, i), k)
  {
    if x.Sem? && x.i == i {
      D.UnservableStays(s.sems[i], k, x.d);
    } else if Touches(x) {
      TouchesNoRequest(s, x, i);
      DisturbedElsewhere(s.sems[i], Site(x), if Writes(x) then D.Other else D.Clear, k);
    }
  }

  lemma {:induction false} UnservableForRun(s: State, run: seq<Label>, i: nat, k: nat)
    requires InvAt(s, i) && k < |s.busy| && !D.Servable(s.sems[i], k) && Runs(s, run) && RunApart(run, i)
    ensures !Woken(s, run, i, k)
    decreases |run|
  {
    if run != [] {
      assert Apart(run[0], i);
      UnservableStays(s, run[0], i, k);
      StepKeepsAt(s, run[0], i);
      forall j | 0 <= j < |run[1..]| ensures Apart(run[1..][j], i) {
        assert run[1..][j] == run[j + 1];
      }
      UnservableForRun(Apply(s, run[0]), run[1..], i, k);
    }
  }

  // ---------------------------------------------------------------- what the semaphore can do alone

  lemma WokenLater(s: State, x: Label, run: seq<Label>, i: nat, k: nat)
    requires WellFormed(s) && Enabled(s, x) && Apart(x, i) && RunApart(run, i) && Woken(Apply(s, x), run, i, k)
    ensures CanServe(s, i, k)
  {
    var all := [x] + run;
    assert all[1..] == run;
    forall j | 0 <= j < |all| ensures Apart(all[j], i) {
      assert j > 0 ==> all[j] == run[j - 1];
    }
    assert Woken(s, all, i, k);
  }

  lemma {:induction false} LiftedRun(s: State, run: seq<D.Label>, i: nat, k: nat)
    requires InvAt(s, i) && D.InternalRun(s.sems[i], run) && D.Enabled(D.After(s.sems[i], run), D.Wake(k))
    ensures CanServe(s, i, k)
    decreases |run|
  {
    if run == [] {
      var none: seq<Label> := [];
      assert Woken(s, none, i, k);
    } else {
      var x := Sem(i, run[0]);
      assert D.Internal(run[0]);
      StepKeepsAt(s, x, i);
      forall j | 0 <= j < |run[1..]| ensures D.Internal(run[1..][j]) {
        assert run[1..][j] == run[j + 1];
      }
      LiftedRun(Apply(s, x), run[1..], i, k);
      var rest :| RunApart(rest, i) && Woken(Apply(s, x), rest, i, k);
      WokenLater(s, x, rest, i, k);
    }
  }

  /** In every reachable state of all memories and semaphores together, and with one calling process
      per site, a `wait_on` in progress can be let through without another call on its semaphore
      exactly when a token is given or matched there, is before the comparison there, or more tokens
      are free than the requests before it take; whatever is called elsewhere does not change it. */
  lemma WaitServedExactlyWhen(s: State, run: seq<Label>, i: nat, k: nat)
    requires Init(s) && Runs(s, run) && i < |s.sems| && k < |s.busy|
    ensures i < |After(s, run).sems|
    ensures var p := After(s, run).sems[i];
      && k < |p.sites| && p.current < |p.sites|
      && (p.sites[k].asking > 0 ==>
            (CanServe(After(s, run), i, k) <==>
               var x := p.sites[k];
               x.given > 0 || x.parent.Matched? || D.Pre(x) > 0 || D.Free(p, k) > D.Toll(p, k)))
      && (CanServe(After(s, run), i, k) ==> p.sites[k].asking > 0)
  {
    InitInv(s);
    D.InitHonest(s.sems[i]);
    RunKeepsAt(s, run, i);
    var t := After(s, run);
    var p := t.sems[i];
    assert SemOk(p, t.busy, i) && SiteOk(p.sites[k], t.busy[k], i);
    D.ServedExactlyFrom(p, k);
    if D.Servable(p, k) {
      var inner :| D.InternalRun(p, inner) && D.Enabled(D.After(p, inner), D.Wake(k));
      LiftedRun(t, inner, i, k);
    } else {
      forall rest | RunApart(rest, i) ensures !Woken(t, rest, i, k) {
        if Runs(t, rest) {
          UnservableForRun(t, rest, i, k);
        }
      }
    }
  }
}
