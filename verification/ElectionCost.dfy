/**
 What the election costs: every run comes to an end, and one round of proposals crosses at
 most n(n+1)/2 links.
 */
module ElectionCost {
  import opened RingNodes
  import opened Election
  import opened ElectionOutcome
  import opened Sums

  function Reelections(run: seq<Label>): nat {
    if run == [] then 0 else (if run[0].Reelect? then 1 else 0) + Reelections(run[1..])
  }

  // What the re-elections of a run add to a bound, c for each.
  function Allowance(run: seq<Label>, c: nat): nat {
    if run == [] then 0 else (if run[0].Reelect? then c else 0) + Allowance(run[1..], c)
  }

  lemma {:induction false} AllowanceIs(run: seq<Label>, c: nat)
    ensures Allowance(run, c) == Reelections(run) * c
  {
    if run != [] {
      AllowanceIs(run[1..], c);
      var k := Reelections(run[1..]);
      assert (k + 1) * c == k * c + c;
    }
  }

  // ---------------------------------------------------------------- termination

  function InQueue(m: Message): nat { 2 * m.ttl + 2 }

  function OnLink(m: Message): nat { 2 * m.ttl + 1 }

  function Total(ms: seq<Message>, weight: Message -> nat): nat {
    if ms == [] then 0 else weight(ms[0]) + Total(ms[1..], weight)
  }

  lemma {:induction false} TotalAppend(ms: seq<Message>, m: Message, weight: Message -> nat)
    ensures Total(ms + [m], weight) == Total(ms, weight) + weight(m)
  {
    if ms == [] {
      assert ms + [m] == [m];
    } else {
      assert (ms + [m])[1..] == ms[1..] + [m];
      TotalAppend(ms[1..], m, weight);
    }
  }

  function StillToQueue(p: Phase): nat {
    match p
    case Booting => 2
    case Announced => 1
    case Forwarding => 0
  }

  ghost function NodeWork(s: State, i: nat): nat
    requires WellFormed(s) && i < s.ring.n
  {
    StillToQueue(s.phase[i]) * (2 * s.ring.ttl + 3) + Total(s.queue[i], InQueue) + Total(s.link[i], OnLink)
  }

  ghost function Works(s: State): (r: seq<nat>)
    requires WellFormed(s)
    ensures |r| == s.ring.n && forall i :: 0 <= i < |r| ==> r[i] == NodeWork(s, i)
  {
    seq(s.ring.n, i requires 0 <= i < s.ring.n => NodeWork(s, i))
  }

  // Twice the sum of (ttl + 1) over all messages, less one for each on a link, plus what the
  // nodes have still to queue.
  ghost function Work(s: State): nat
    requires WellFormed(s)
  {
    Sum(Works(s))
  }

  lemma OthersWorkTheSame(s: State, l: Label, j: nat)
    requires WellFormed(s) && Enabled(s, l) && j < s.ring.n && j != l.i
    requires l.Receive? ==> j != Prev(l.i, s.ring.n)
    ensures WellFormed(Apply(s, l)) && Apply(s, l).ring == s.ring && NodeWork(Apply(s, l), j) == NodeWork(s, j)
  {
    StepKeepsWellFormed(s, l);
  }

  lemma OwnWork(s: State, l: Label)
    requires WellFormed(s) && Enabled(s, l) && !l.Receive?
    ensures WellFormed(Apply(s, l)) && Apply(s, l).ring == s.ring
    ensures NodeWork(Apply(s, l), l.i) < NodeWork(s, l.i) + if l.Reelect? then 2 * s.ring.ttl + 3 else 0
  {
    StepKeepsWellFormed(s, l);
    var i := l.i;
    if l.Send? {
      TotalAppend(s.link[i], s.queue[i][0], OnLink);
    } else {
      TotalAppend(s.queue[i], Added(s, l)[0], InQueue);
    }
  }

  // A message that is received leaves less work at the two ends of its link together.
  lemma ReceiverWork(s: State, i: nat)
    requires WellFormed(s) && Enabled(s, Receive(i))
    ensures WellFormed(Apply(s, Receive(i))) && Apply(s, Receive(i)).ring == s.ring
    ensures var t, p := Apply(s, Receive(i)), Prev(i, s.ring.n);
      if p == i then NodeWork(t, i) < NodeWork(s, i)
      else NodeWork(t, i) + NodeWork(t, p) < NodeWork(s, i) + NodeWork(s, p)
  {
    var p := Prev(i, s.ring.n);
    StepKeepsWellFormed(s, Receive(i));
    var m := s.link[p][0];
    if m.ttl > 0 {
      TotalAppend(s.queue[i], m.(ttl := m.ttl - 1), InQueue);
    }
  }

  lemma SumChangesAtTwo(xs: seq<nat>, ys: seq<nat>, i: nat, p: nat)
    requires |xs| == |ys| && i < |xs| && p < |xs| && i != p
    requires forall j :: 0 <= j < |xs| && j != i && j != p ==> xs[j] == ys[j]
    ensures Sum(ys) + xs[i] + xs[p] == Sum(xs) + ys[i] + ys[p]
  {
    var mid := xs[i := ys[i]];
    SumChangesAt(xs, mid, i);
    SumChangesAt(mid, ys, p);
  }

  lemma StepWorks(s: State, l: Label)
    requires WellFormed(s) && Enabled(s, l)
    ensures WellFormed(Apply(s, l)) && Apply(s, l).ring == s.ring
    ensures Work(Apply(s, l)) < Work(s) + if l.Reelect? then 2 * s.ring.ttl + 3 else 0
  {
    var t := Apply(s, l);
    StepKeepsWellFormed(s, l);
    forall j | 0 <= j < s.ring.n && j != l.i && (l.Receive? ==> j != Prev(l.i, s.ring.n))
      ensures NodeWork(t, j) == NodeWork(s, j) {
      OthersWorkTheSame(s, l, j);
    }
    if l.Receive? {
      ReceiverWork(s, l.i);
    } else {
      OwnWork(s, l);
    }
    if l.Receive? && Prev(l.i, s.ring.n) != l.i {
      SumChangesAtTwo(Works(s), Works(t), l.i, Prev(l.i, s.ring.n));
    } else {
      SumChangesAt(Works(s), Works(t), l.i);
    }
  }

  /** Every message dies: a run has no more steps than the work at its start, each re-election
      by a standing leader adding one message's worth. */
  lemma {:induction false} RunsEnd(s: State, run: seq<Label>)
    requires WellFormed(s) && Runs(s, run)
    ensures WellFormed(After(s, run)) && After(s, run).ring == s.ring
    ensures |run| + Work(After(s, run)) <= Work(s) + Allowance(run, 2 * s.ring.ttl + 3)
    decreases |run|
  {
    if run != [] {
      var t, c := Apply(s, run[0]), 2 * s.ring.ttl + 3;
      StepWorks(s, run[0]);
      RunsEnd(t, run[1..]);
      assert After(s, run) == After(t, run[1..]);
      assert Allowance(run, c) == (if run[0].Reelect? then c else 0) + Allowance(run[1..], c);
    }
  }

  lemma {:induction false} SumConstant(xs: seq<nat>, c: nat)
    requires forall i :: 0 <= i < |xs| ==> xs[i] == c
    ensures Sum(xs) == |xs| * c
  {
    if xs != [] {
      SumConstant(xs[1..], c);
      assert |xs| * c == (|xs| - 1) * c + c;
    }
  }

  // A run can go on without a re-election as long as it has not settled, and no longer.
  lemma SettledExactlyWhenOnlyReelection(s: State)
    requires WellFormed(s)
    ensures Settled(s) <==> forall l :: Enabled(s, l) ==> l.Reelect?
  {
    if forall l :: Enabled(s, l) ==> l.Reelect? {
      forall i | 0 <= i < s.ring.n ensures s.phase[i].Forwarding? && s.queue[i] == [] {
        assert !Enabled(s, Announce(i)) && !Enabled(s, Propose(i)) && !Enabled(s, Send(i));
      }
      forall i | 0 <= i < s.ring.n ensures s.link[i] == [] {
        var j := Next(i, s.ring.n);
        assert Prev(j, s.ring.n) == i && !Enabled(s, Receive(j));
      }
    }
  }

  /** From the start a run has at most 2n(2 TTL + 3) steps, and 2 TTL + 3 more for every
      re-election by a standing leader; one that cannot be continued otherwise has elected the
      greatest node everywhere. */
  lemma ElectionEnds(s: State, run: seq<Label>, w: nat)
    requires Init(s) && Runs(s, run) && w < s.ring.n && Top(s.ring, w)
    ensures |run| <= s.ring.n * (2 * (2 * s.ring.ttl + 3)) + Reelections(run) * (2 * s.ring.ttl + 3)
    ensures WellFormed(After(s, run)) && After(s, run).ring == s.ring
    ensures s.ring.n <= s.ring.ttl && (forall l :: Enabled(After(s, run), l) ==> l.Reelect?) ==>
              AllAgreeOn(After(s, run), w)
  {
    RunsEnd(s, run);
    AllowanceIs(run, 2 * s.ring.ttl + 3);
    SumConstant(Works(s), 2 * (2 * s.ring.ttl + 3));
    SettledRingAgrees(s, run, w);
    SettledExactlyWhenOnlyReelection(After(s, run));
  }

  // ---------------------------------------------------------------- link crossings

  // A proposal arrives over a link, whatever becomes of it.
  ghost function Crossed(s: State, l: Label): nat
    requires WellFormed(s) && Enabled(s, l)
  {
    if l.Receive? && s.link[Prev(l.i, s.ring.n)][0].kind.Leader? then 1 else 0
  }

  ghost function Crossings(s: State, run: seq<Label>): nat
    requires Runs(s, run)
    decreases |run|
  {
    if run == [] then 0 else Crossed(s, run[0]) + Crossings(Apply(s, run[0]), run[1..])
  }

  // Links that the proposals in `ms` can still cross when each can cross c.
  function Reach(ms: seq<Message>, c: nat): nat {
    if ms == [] then 0 else (if ms[0].kind.Leader? then c else 0) + Reach(ms[1..], c)
  }

  lemma {:induction false} ReachAppend(ms: seq<Message>, more: seq<Message>, c: nat)
    ensures Reach(ms + more, c) == Reach(ms, c) + Reach(more, c)
  {
    if ms == [] {
      assert ms + more == more;
    } else {
      assert (ms + more)[1..] == ms[1..] + more;
      ReachAppend(ms[1..], more, c);
    }
  }

  ghost predicate Home(s: State, w: nat) {
    Safe(s) && w < s.ring.n && Top(s.ring, w)
  }

  // Links between i and w, where every proposal ends at the latest.
  ghost function ToGo(r: Ring, w: nat, i: nat): (c: nat)
    requires w < r.n && i < r.n
    ensures 1 <= c <= r.n
  {
    r.n - Off(r, w, i)
  }

  ghost function NodeReach(s: State, w: nat, i: nat): nat
    requires WellFormed(s) && w < s.ring.n && i < s.ring.n
  {
    (if s.phase[i].Forwarding? then 0 else ToGo(s.ring, w, i)) + Reach(Channel(s, i), ToGo(s.ring, w, i))
  }

  ghost function Reaches(s: State, w: nat): (r: seq<nat>)
    requires WellFormed(s) && w < s.ring.n
    ensures |r| == s.ring.n && forall i :: 0 <= i < |r| ==> r[i] == NodeReach(s, w, i)
  {
    seq(s.ring.n, i requires 0 <= i < s.ring.n => NodeReach(s, w, i))
  }

  lemma ReachUnchanged(s: State, w: nat, l: Label, i: nat)
    requires Home(s, w) && Enabled(s, l) && i < s.ring.n && i != l.i
    requires l.Receive? ==> i != Prev(l.i, s.ring.n)
    ensures Safe(Apply(s, l)) && Apply(s, l).ring == s.ring && NodeReach(Apply(s, l), w, i) == NodeReach(s, w, i)
  {
    StepKeepsSafe(s, l);
    ChannelsMove(s, l, i);
  }

  lemma OwnReach(s: State, w: nat, l: Label)
    requires Home(s, w) && Enabled(s, l) && !l.Receive?
    ensures Safe(Apply(s, l)) && Apply(s, l).ring == s.ring
    ensures NodeReach(Apply(s, l), w, l.i) <= NodeReach(s, w, l.i) + if l.Reelect? then s.ring.n else 0
  {
    StepKeepsSafe(s, l);
    ChannelsMove(s, l, l.i);
    if !l.Send? {
      ReachAppend(Channel(s, l.i), Added(s, l), ToGo(s.ring, w, l.i));
    }
  }

  ghost function Lost(s: State, w: nat, i: nat): nat
    requires WellFormed(s) && w < s.ring.n && Enabled(s, Receive(i))
  {
    Reach(s.link[Prev(i, s.ring.n)][..1], ToGo(s.ring, w, Prev(i, s.ring.n)))
  }

  ghost function Gained(s: State, w: nat, i: nat): nat
    requires WellFormed(s) && w < s.ring.n && Enabled(s, Receive(i))
  {
    Reach(Added(s, Receive(i)), ToGo(s.ring, w, i))
  }

  // A proposal that crosses a link has at least one link less to go; w lets none pass.
  lemma CrossingCosts(s: State, w: nat, i: nat)
    requires Home(s, w) && Enabled(s, Receive(i))
    ensures Crossed(s, Receive(i)) + Gained(s, w, i) <= Lost(s, w, i)
  {
    var p := Prev(i, s.ring.n);
    assert s.link[p][0] == Channel(s, p)[0];
    assert Travelled(s.ring, p, Channel(s, p)[0]);
    OffStep(s.ring, w, i);
    var m := s.link[p][0];
    assert s.link[p][..1] == [m];
    assert Reach([m], ToGo(s.ring, w, p)) == if m.kind.Leader? then ToGo(s.ring, w, p) else 0;
    if Added(s, Receive(i)) != [] {
      PassedOn(s, i, m);
      var on := m.(ttl := m.ttl - 1);
      assert Added(s, Receive(i)) == [on];
      assert Reach([on], ToGo(s.ring, w, i)) == if m.kind.Leader? then ToGo(s.ring, w, i) else 0;
    }
  }

  lemma AloneForwardsNothing(s: State, i: nat)
    requires Safe(s) && Enabled(s, Receive(i)) && Prev(i, s.ring.n) == i
    ensures Added(s, Receive(i)) == []
  {
    assert s.link[i][0] == Channel(s, i)[0];
    assert Travelled(s.ring, i, s.link[i][0]);
  }

  lemma SourceReach(s: State, w: nat, i: nat)
    requires Home(s, w) && Enabled(s, Receive(i))
    ensures Safe(Apply(s, Receive(i))) && Apply(s, Receive(i)).ring == s.ring && Prev(i, s.ring.n) < s.ring.n
    ensures NodeReach(Apply(s, Receive(i)), w, Prev(i, s.ring.n)) + Lost(s, w, i)
              == NodeReach(s, w, Prev(i, s.ring.n))
  {
    var l, p := Receive(i), Prev(i, s.ring.n);
    StepKeepsSafe(s, l);
    ChannelsMove(s, l, p);
    var c := Channel(s, p);
    assert s.link[p][..1] == c[..1] && c == c[..1] + c[1..];
    ReachAppend(c[..1], c[1..], ToGo(s.ring, w, p));
    if p == i {
      AloneForwardsNothing(s, i);
      assert ChannelAfter(s, l, p) == c[1..];
    }
  }

  lemma ReceiverReach(s: State, w: nat, i: nat)
    requires Home(s, w) && Enabled(s, Receive(i)) && Prev(i, s.ring.n) != i
    ensures Safe(Apply(s, Receive(i))) && Apply(s, Receive(i)).ring == s.ring
    ensures NodeReach(Apply(s, Receive(i)), w, i) == NodeReach(s, w, i) + Gained(s, w, i)
  {
    StepKeepsSafe(s, Receive(i));
    ChannelsMove(s, Receive(i), i);
    ReachAppend(Channel(s, i), Added(s, Receive(i)), ToGo(s.ring, w, i));
  }

  lemma StepReach(s: State, w: nat, l: Label)
    requires Home(s, w) && Enabled(s, l)
    ensures Home(Apply(s, l), w) && Apply(s, l).ring == s.ring
    ensures Crossed(s, l) + Sum(Reaches(Apply(s, l), w)) <= Sum(Reaches(s, w)) + if l.Reelect? then s.ring.n else 0
  {
    var t, i, p := Apply(s, l), l.i, Prev(l.i, s.ring.n);
    StepKeepsSafe(s, l);
    forall k | 0 <= k < s.ring.n && k != i && (l.Receive? ==> k != p)
      ensures NodeReach(t, w, k) == NodeReach(s, w, k) {
      ReachUnchanged(s, w, l, k);
    }
    if !l.Receive? {
      OwnReach(s, w, l);
      SumChangesAt(Reaches(s, w), Reaches(t, w), i);
    } else {
      CrossingCosts(s, w, i);
      SourceReach(s, w, i);
      if p == i {
        SumChangesAt(Reaches(s, w), Reaches(t, w), i);
      } else {
        ReceiverReach(s, w, i);
        SumChangesAtTwo(Reaches(s, w), Reaches(t, w), i, p);
      }
    }
  }

  lemma {:induction false} RunReach(s: State, w: nat, run: seq<Label>)
    requires Home(s, w) && Runs(s, run)
    ensures Safe(After(s, run)) && After(s, run).ring == s.ring
    ensures Crossings(s, run) + Sum(Reaches(After(s, run), w)) <= Sum(Reaches(s, w)) + Allowance(run, s.ring.n)
    decreases |run|
  {
    if run != [] {
      StepReach(s, w, run[0]);
      RunReach(Apply(s, run[0]), w, run[1..]);
    }
  }

  lemma {:induction false} SumCountdown(xs: seq<nat>)
    requires forall d :: 0 <= d < |xs| ==> xs[d] == |xs| - d
    ensures 2 * Sum(xs) == |xs| * (|xs| + 1)
  {
    if xs != [] {
      SumCountdown(xs[1..]);
    }
  }

  lemma {:induction false} SumConcat(xs: seq<nat>, ys: seq<nat>)
    ensures Sum(xs + ys) == Sum(xs) + Sum(ys)
  {
    if xs == [] {
      assert xs + ys == ys;
    } else {
      assert (xs + ys)[1..] == xs[1..] + ys;
      SumConcat(xs[1..], ys);
    }
  }

  lemma InitReach(s: State, w: nat)
    requires Init(s) && w < s.ring.n
    ensures 2 * Sum(Reaches(s, w)) == s.ring.n * (s.ring.n + 1)
  {
    var xs := Reaches(s, w);
    forall i | 0 <= i < s.ring.n ensures xs[i] == ToGo(s.ring, w, i) {
      assert Channel(s, i) == [];
    }
    assert xs == xs[..w] + xs[w..];
    SumConcat(xs[..w], xs[w..]);
    SumConcat(xs[w..], xs[..w]);
    SumCountdown(xs[w..] + xs[..w]);
  }

  /** One round of proposals crosses at most n(n+1)/2 links, and every later re-election of the
      leader crosses at most n more. */
  lemma CrossingsBounded(s: State, run: seq<Label>, w: nat)
    requires Init(s) && Runs(s, run) && w < s.ring.n && Top(s.ring, w)
    ensures 2 * Crossings(s, run) <= s.ring.n * (s.ring.n + 1) + 2 * (Reelections(run) * s.ring.n)
  {
    InitSafe(s);
    RunReach(s, w, run);
    AllowanceIs(run, s.ring.n);
    InitReach(s, w);
  }
}
