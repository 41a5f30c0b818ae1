/**
 Several distributed memories used by one calling process per site, which also uses semaphores.
 The register of a site is shared by all of them: what a call writes or clears there, every
 memory of the site sees. A call on a semaphore is no more here than what it does to the register.
 */
module SharedRegister {
  import opened Wakeups
  import C = Coherence

  // What the process of a site is doing: nothing that concerns the memories, or one call.
  datatype Busy = Free | Calling(r: nat)

  datatype State = State(parts: seq<C.State>, busy: seq<Busy>)

  // A step of memory r; a disturbance is the process using a semaphore, and belongs to no memory.
  datatype Label = On(r: nat, l: C.Label)

  ghost predicate WellFormed(s: State) {
    && (forall r :: 0 <= r < |s.parts| ==> C.WellFormed(s.parts[r]) && |s.parts[r].clients| == |s.busy|)
    && (forall k :: 0 <= k < |s.busy| && s.busy[k].Calling? ==> s.busy[k].r < |s.parts|)
  }

  // Steps that write or clear the register.
  predicate Touches(l: C.Label) {
    l.Ask? || l.Enter? || l.Depart? || l.Disturb?
  }

  // What the other memories of the site see of it.
  function Seen(l: C.Label): C.Label {
    if l.Disturb? then l else C.Disturb(l.k, if l.Ask? then C.Other else C.Clear)
  }

  // The process begins a call, or works on a memory, only when it is in no call.
  ghost predicate Enabled(s: State, x: Label)
    requires WellFormed(s)
  {
    && x.r < |s.parts| && C.Enabled(s.parts[x.r], x.l)
    && (x.l.Ask? || x.l.Depart? || x.l.Write? || x.l.Disturb? ==> s.busy[x.l.k].Free?)
  }

  ghost function Part(s: State, x: Label, q: nat): C.State
    requires WellFormed(s) && Enabled(s, x) && q < |s.parts|
  {
    if q == x.r then C.Apply(s.parts[q], x.l)
    else if Touches(x.l) then C.Apply(s.parts[q], Seen(x.l))
    else s.parts[q]
  }

  ghost function Apply(s: State, x: Label): State
    requires WellFormed(s) && Enabled(s, x)
  {
    State(seq(|s.parts|, q requires 0 <= q < |s.parts| => Part(s, x, q)),
      if x.l.Ask? || x.l.Depart? then s.busy[x.l.k := Calling(x.r)]
      else if x.l.Enter? || x.l.Return? then s.busy[x.l.k := Free]
      else s.busy)
  }

  ghost predicate Runs(s: State, run: seq<Label>)
    decreases |run|
  {
    run == [] || (WellFormed(s) && Enabled(s, run[0]) && Runs(Apply(s, run[0]), run[1..]))
  }

  ghost function After(s: State, run: seq<Label>): State
    requires Runs(s, run)
    decreases |run|
  {
    if run == [] then s else After(Apply(s, run[0]), run[1..])
  }

  ghost predicate Init(s: State) {
    && WellFormed(s)
    && (forall r :: 0 <= r < |s.parts| ==> C.Init(s.parts[r]))
    && (forall k :: 0 <= k < |s.busy| ==> s.busy[k].Free?)
  }

  // ---------------------------------------------------------------- one call at a time

  // The application is inside `lock`; or inside any call.
  predicate InLock(a: C.App) { a.Asking? || a.Woken? }

  predicate InCall(a: C.App) { InLock(a) || a.Leaving? }

  // A process is in at most one call, and a request that is not yet granted stands.
  ghost predicate OneCall(p: C.State, busy: seq<Busy>, r: nat) {
    && |p.clients| == |busy|
    && forall k :: 0 <= k < |busy| ==>
         && (InCall(p.clients[k].app) <==> busy[k] == Calling(r))
         && (InLock(p.clients[k].app) ==> p.clients[k].register.Own?)
  }

  ghost predicate Inv(s: State) {
    && WellFormed(s)
    && forall r :: 0 <= r < |s.parts| ==> C.Inv(s.parts[r]) && OneCall(s.parts[r], s.busy, r)
  }

  lemma InitInv(s: State)
    requires Init(s)
    ensures Inv(s)
  {
    forall r | 0 <= r < |s.parts| ensures C.Inv(s.parts[r]) && OneCall(s.parts[r], s.busy, r) {
      C.InitInv(s.parts[r]);
    }
  }

  lemma PartKeepsInv(s: State, x: Label, q: nat)
    requires Inv(s) && Enabled(s, x) && q < |s.parts|
    ensures C.Inv(Part(s, x, q)) && |Part(s, x, q).clients| == |s.busy|
  {
    if q == x.r {
      C.StepKeeps(s.parts[q], x.l);
    } else if Touches(x.l) {
      C.StepKeeps(s.parts[q], Seen(x.l));
    }
  }

  // In its own memory a step moves the application as the call goes.
  lemma CallOneCall(s: State, x: Label)
    requires Inv(s) && Enabled(s, x)
    requires x.l.Ask? || x.l.Wake? || x.l.Enter? || x.l.Depart? || x.l.Return? || x.l.Disturb?
    ensures OneCall(Part(s, x, x.r), Apply(s, x).busy, x.r)
  {
    assert OneCall(s.parts[x.r], s.busy, x.r);
  }

  lemma OwnPartOneCall(s: State, x: Label)
    requires Inv(s) && Enabled(s, x)
    ensures OneCall(Part(s, x, x.r), Apply(s, x).busy, x.r)
  {
    assert OneCall(s.parts[x.r], s.busy, x.r);
    if x.l.Ask? || x.l.Wake? || x.l.Enter? || x.l.Depart? || x.l.Return? || x.l.Disturb? {
      CallOneCall(s, x);
    }
  }

  // In the others it may clear the register, but only of a process that is in no call there.
  lemma OtherPartOneCall(s: State, x: Label, q: nat)
    requires Inv(s) && Enabled(s, x) && q < |s.parts| && q != x.r
    ensures OneCall(Part(s, x, q), Apply(s, x).busy, q)
  {
    assert OneCall(s.parts[q], s.busy, q) && OneCall(s.parts[x.r], s.busy, x.r);
  }

  lemma StepKeeps(s: State, x: Label)
    requires Inv(s) && Enabled(s, x)
    ensures Inv(Apply(s, x)) && |Apply(s, x).parts| == |s.parts|
  {
    var t := Apply(s, x);
    forall q | 0 <= q < |t.parts| ensures C.Inv(t.parts[q]) && OneCall(t.parts[q], t.busy, q) {
      PartKeepsInv(s, x, q);
      if q == x.r {
        OwnPartOneCall(s, x);
      } else {
        OtherPartOneCall(s, x, q);
      }
    }
  }

  lemma {:induction false} RunKeeps(s: State, run: seq<Label>)
    requires Inv(s) && Runs(s, run)
    ensures Inv(After(s, run)) && |After(s, run).parts| == |s.parts|
    decreases |run|
  {
    if run != [] {
      StepKeeps(s, run[0]);
      RunKeeps(Apply(s, run[0]), run[1..]);
    }
  }

  /** With one calling process per site no standing request is ever overwritten: in every reachable
      state no client inside `lock` is forgotten, and each can still enter as far as its own memory
      goes. A process inside another memory may never leave it: `JointProgress` says exactly when. */
  lemma NobodyForgotten(s: State, run: seq<Label>, r: nat, k: nat)
    requires Init(s) && Runs(s, run) && r < |s.parts|
    ensures r < |After(s, run).parts| && C.Inv(After(s, run).parts[r])
    ensures var p := After(s, run).parts[r];
      k < |p.clients| && InLock(p.clients[k].app) ==> C.CanEnter(p, k) && !C.Forgotten(p, k)
  {
    InitInv(s);
    RunKeeps(s, run);
    var p := After(s, run).parts[r];
    assert OneCall(p, After(s, run).busy, r);
    if k < |p.clients| && InLock(p.clients[k].app) {
      C.EntersExactlyWhenStanding(p, k);
    }
  }

  // ---------------------------------------------------------------- the run of one memory

  ghost function Share(s: State, run: seq<Label>, q: nat): seq<C.Label>
    requires Runs(s, run)
    decreases |run|
  {
    if run == [] then []
    else
      var rest := Share(Apply(s, run[0]), run[1..], q);
      if run[0].r == q then [run[0].l] + rest else if Touches(run[0].l) then [Seen(run[0].l)] + rest else rest
  }

  lemma RunsCons(p: C.State, l: C.Label, rest: seq<C.Label>)
    requires C.WellFormed(p) && C.Enabled(p, l) && C.Runs(C.Apply(p, l), rest)
    ensures C.Runs(p, [l] + rest) && C.After(p, [l] + rest) == C.After(C.Apply(p, l), rest)
  {
    assert ([l] + rest)[1..] == rest;
  }

  lemma {:induction false} ShareIsRun(s: State, run: seq<Label>, q: nat)
    requires Inv(s) && Runs(s, run) && q < |s.parts|
    ensures q < |After(s, run).parts|
    ensures C.Runs(s.parts[q], Share(s, run, q)) && C.After(s.parts[q], Share(s, run, q)) == After(s, run).parts[q]
    decreases |run|
  {
    if run != [] {
      var t := Apply(s, run[0]);
      StepKeeps(s, run[0]);
      ShareIsRun(t, run[1..], q);
      if run[0].r == q {
        RunsCons(s.parts[q], run[0].l, Share(t, run[1..], q));
      } else if Touches(run[0].l) {
        RunsCons(s.parts[q], Seen(run[0].l), Share(t, run[1..], q));
      }
    }
  }

  // While a client is inside `lock`, its process does nothing else.
  lemma StaysInLock(s: State, x: Label, r: nat, k: nat)
    requires Inv(s) && Enabled(s, x) && r < |s.parts| && k < |s.busy| && InLock(s.parts[r].clients[k].app)
    requires x != On(r, C.Enter(k))
    ensures Touches(x.l) && (x.r != r || x.l.Disturb?) ==> x.l.k != k
    ensures InLock(Part(s, x, r).clients[k].app)
  {
    assert OneCall(s.parts[r], s.busy, r) && OneCall(s.parts[x.r], s.busy, x.r);
  }

  lemma UndisturbedCons(l: C.Label, rest: seq<C.Label>, k: nat)
    requires C.Undisturbed(rest, k) && C.Enter(k) !in rest && !(l.Disturb? && l.k == k) && l != C.Enter(k)
    ensures C.Undisturbed([l] + rest, k) && C.Enter(k) !in [l] + rest
  {
    forall i | 0 <= i < |[l] + rest| ensures !(([l] + rest)[i].Disturb? && ([l] + rest)[i].k == k) {
      assert i > 0 ==> ([l] + rest)[i] == rest[i - 1];
    }
  }

  lemma {:induction false} ShareUndisturbed(s: State, run: seq<Label>, r: nat, k: nat)
    requires Inv(s) && Runs(s, run) && r < |s.parts| && k < |s.busy| && InLock(s.parts[r].clients[k].app)
    requires On(r, C.Enter(k)) !in run
    ensures C.Undisturbed(Share(s, run, r), k) && C.Enter(k) !in Share(s, run, r)
    decreases |run|
  {
    if run != [] {
      var t := Apply(s, run[0]);
      assert run[0] != On(r, C.Enter(k));
      StaysInLock(s, run[0], r, k);
      StepKeeps(s, run[0]);
      ShareUndisturbed(t, run[1..], r, k);
      if run[0].r == r {
        UndisturbedCons(run[0].l, Share(t, run[1..], r), k);
      } else if Touches(run[0].l) {
        UndisturbedCons(Seen(run[0].l), Share(t, run[1..], r), k);
      }
    }
  }

  /** With one calling process per site every `lock` is entered, in every run of all the memories
      together, before its memory's token has made more than n + 1 turns of at most 4c + 15 moves
      each. That the token goes on moving is not said here: `JointProgress` says exactly when. */
  lemma EveryLockReturns(s: State, r: nat, k: nat, run: seq<Label>)
    requires Inv(s) && Enabled(s, On(r, C.Ask(k))) && Runs(Apply(s, On(r, C.Ask(k))), run)
    requires On(r, C.Enter(k)) !in run
    ensures var p := s.parts[r];
      C.TokenSteps(Share(Apply(s, On(r, C.Ask(k))), run, r)) <= 4 * p.count + 14 + |p.clients| * (4 * p.count + 15)
  {
    var t := Apply(s, On(r, C.Ask(k)));
    StepKeeps(s, On(r, C.Ask(k)));
    assert t.parts[r] == C.Apply(s.parts[r], C.Ask(k));
    ShareIsRun(t, run, r);
    ShareUndisturbed(t, run, r, k);
    C.LockReturns(s.parts[r], k, Share(t, run, r));
  }
}
