/**
 What a broken link sets off: the LinkBroken of a node goes round the ring and stops the leader
 process of every other node, and what is left when a quiet ring is disturbed in some places.
 */
module LinkBreaks {
  import opened RingNodes
  import opened Election
  import opened ElectionOutcome

  predicate Break(o: nat, m: Message) {
    m.kind.LinkBroken? && m.origin == o
  }

  // The inbound driver of node i is given the LinkBroken of node o.
  ghost predicate Hears(s: State, l: Label, o: nat, i: nat)
    requires WellFormed(s) && Enabled(s, l)
  {
    l == Receive(i) && var m := s.link[Prev(i, s.ring.n)][0]; m.ttl > 0 && Break(o, m)
  }

  ghost predicate HeardIn(s: State, run: seq<Label>, o: nat, i: nat)
    requires Runs(s, run)
    decreases |run|
  {
    run != [] && (Hears(s, run[0], o, i) || HeardIn(Apply(s, run[0]), run[1..], o, i))
  }

  ghost predicate OnItsWay(s: State, o: nat, i: nat)
    requires WellFormed(s) && o < s.ring.n && i < s.ring.n
  {
    exists j, k :: 0 <= j < s.ring.n && 0 <= k < |Channel(s, j)| && Break(o, Channel(s, j)[k])
      && Dist(o, j, s.ring.n) < Dist(o, i, s.ring.n)
  }

  // A break that is heard stops the leader process and leaves the name of the leader alone.
  lemma HearingStops(s: State, l: Label, o: nat, i: nat)
    requires WellFormed(s) && Enabled(s, l) && Hears(s, l, o, i) && o != i
    ensures |Apply(s, l).inbound| == s.ring.n
    ensures Apply(s, l).inbound[i] == s.inbound[i].(running := false)
  {
    assert FromRing(s.link[Prev(i, s.ring.n)], s.ring.n);
  }

  // Only nodes within the time to live hear it.
  lemma HeardWithinTtl(s: State, l: Label, o: nat, i: nat)
    requires Journeys(s) && Enabled(s, l) && Hears(s, l, o, i) && o < s.ring.n && o != i
    ensures Dist(o, i, s.ring.n) <= s.ring.ttl
  {
    var p := Prev(i, s.ring.n);
    assert s.link[p][0] == Channel(s, p)[0];
    assert Travelled(s.ring, p, Channel(s, p)[0]);
    StepInRing(o, i, s.ring.n);
  }

  // The break at the head of a channel is heard by the next node, or goes on from there.
  lemma BreakMoves(s: State, o: nat, i: nat, x: nat)
    requires Journeys(s) && Enabled(s, Receive(x)) && o < s.ring.n && i < s.ring.n && o != i
    requires Break(o, s.link[Prev(x, s.ring.n)][0])
    requires Dist(o, Prev(x, s.ring.n), s.ring.n) < Dist(o, i, s.ring.n) <= s.ring.ttl
    ensures x != o && Dist(o, x, s.ring.n) == Dist(o, Prev(x, s.ring.n), s.ring.n) + 1
    ensures Hears(s, Receive(x), o, x)
    ensures x != i ==> |Added(s, Receive(x))| == 1 && Break(o, Added(s, Receive(x))[0])
  {
    var p := Prev(x, s.ring.n);
    assert s.link[p][0] == Channel(s, p)[0];
    assert Travelled(s.ring, p, Channel(s, p)[0]);
    StepInRing(o, x, s.ring.n);
  }

  lemma StepCarriesBreak(s: State, l: Label, o: nat, i: nat)
    requires Journeys(s) && Enabled(s, l) && o < s.ring.n && i < s.ring.n && o != i
    requires OnItsWay(s, o, i) && Dist(o, i, s.ring.n) <= s.ring.ttl
    ensures Journeys(Apply(s, l)) && Apply(s, l).ring == s.ring
    ensures Hears(s, l, o, i) || OnItsWay(Apply(s, l), o, i)
  {
    StepKeepsJourneys(s, l);
    var t := Apply(s, l);
    var j, k :| 0 <= j < s.ring.n && 0 <= k < |Channel(s, j)| && Break(o, Channel(s, j)[k])
      && Dist(o, j, s.ring.n) < Dist(o, i, s.ring.n);
    ChannelsMove(s, l, j);
    if l.Receive? && j == Prev(l.i, s.ring.n) {
      if k > 0 {
        assert Break(o, Channel(t, j)[k - 1]);
      } else {
        assert s.link[j][0] == Channel(s, j)[0];
        BreakMoves(s, o, i, l.i);
        if l.i != i {
          ChannelsMove(s, l, l.i);
          var c := Channel(t, l.i);
          assert Break(o, c[|c| - 1]);
          NotFurther(o, l.i, i, s.ring.n);
        }
      }
    } else {
      assert Break(o, Channel(t, j)[k]);
    }
  }

  lemma NotFurther(o: nat, x: nat, i: nat, n: nat)
    requires o < n && x < n && i < n && x != i && Dist(o, x, n) <= Dist(o, i, n)
    ensures Dist(o, x, n) < Dist(o, i, n)
  {
  }

  // What is to be said of the break of o at i as long as i has not heard it.
  ghost predicate Coming(s: State, o: nat, i: nat)
    requires WellFormed(s) && o < s.ring.n && i < s.ring.n
  {
    s.phase[o].Booting? || OnItsWay(s, o, i)
  }

  lemma StepKeepsComing(s: State, l: Label, o: nat, i: nat)
    requires Journeys(s) && Enabled(s, l) && o < s.ring.n && i < s.ring.n && o != i
    requires Coming(s, o, i) && Dist(o, i, s.ring.n) <= s.ring.ttl
    ensures Journeys(Apply(s, l)) && Apply(s, l).ring == s.ring
    ensures Hears(s, l, o, i) || Coming(Apply(s, l), o, i)
  {
    StepKeepsJourneys(s, l);
    if OnItsWay(s, o, i) {
      StepCarriesBreak(s, l, o, i);
    } else if l == Announce(o) {
      ChannelsMove(s, l, o);
      assert Break(o, Channel(Apply(s, l), o)[|Channel(s, o)|]);
    }
  }

  lemma {:induction false} RunKeepsComing(s: State, run: seq<Label>, o: nat, i: nat)
    requires Journeys(s) && Runs(s, run) && o < s.ring.n && i < s.ring.n && o != i
    requires Coming(s, o, i) && Dist(o, i, s.ring.n) <= s.ring.ttl
    ensures Journeys(After(s, run)) && After(s, run).ring == s.ring
    ensures HeardIn(s, run, o, i) || Coming(After(s, run), o, i)
    decreases |run|
  {
    if run != [] {
      var t := Apply(s, run[0]);
      StepKeepsComing(s, run[0], o, i);
      if Hears(s, run[0], o, i) {
        RunKeepsJourneys(t, run[1..]);
      } else {
        RunKeepsComing(t, run[1..], o, i);
      }
    }
  }

  lemma {:induction false} RunKeepsJourneys(s: State, run: seq<Label>)
    requires Journeys(s) && Runs(s, run)
    ensures Journeys(After(s, run)) && After(s, run).ring == s.ring
    decreases |run|
  {
    if run != [] {
      StepKeepsJourneys(s, run[0]);
      RunKeepsJourneys(Apply(s, run[0]), run[1..]);
    }
  }

  lemma {:induction false} RunHeardWithinTtl(s: State, run: seq<Label>, o: nat, i: nat)
    requires Journeys(s) && Runs(s, run) && o < s.ring.n && i < s.ring.n && o != i && HeardIn(s, run, o, i)
    ensures Dist(o, i, s.ring.n) <= s.ring.ttl
    decreases |run|
  {
    if Hears(s, run[0], o, i) {
      HeardWithinTtl(s, run[0], o, i);
    } else {
      StepKeepsJourneys(s, run[0]);
      RunHeardWithinTtl(Apply(s, run[0]), run[1..], o, i);
    }
  }

  /** The LinkBroken of every node that has announced itself is on its way to each other node until
      that node's driver has been given it, over every run from the start; and once the ring has
      settled it has been given to exactly those within the time to live. */
  lemma BreaksGoRound(s: State, run: seq<Label>, o: nat, i: nat)
    requires Init(s) && Runs(s, run) && o < s.ring.n && i < s.ring.n && o != i
    ensures WellFormed(After(s, run)) && After(s, run).ring == s.ring
    ensures var t := After(s, run);
      && (Dist(o, i, s.ring.n) <= s.ring.ttl && !t.phase[o].Booting? ==>
            HeardIn(s, run, o, i) || OnItsWay(t, o, i))
      && (Settled(t) ==> (HeardIn(s, run, o, i) <==> Dist(o, i, s.ring.n) <= s.ring.ttl))
  {
    InitSafe(s);
    RunKeepsJourneys(s, run);
    if Dist(o, i, s.ring.n) <= s.ring.ttl {
      RunKeepsComing(s, run, o, i);
    } else if HeardIn(s, run, o, i) {
      RunHeardWithinTtl(s, run, o, i);
    }
  }

  // ---------------------------------------------------------------- a quiet ring that is disturbed

  /** Nothing is in flight; the nodes in Booting are about to announce that their link broke, all
      others forward. Which leader a node names and whether it runs a process may be anything. */
  ghost predicate Disturbed(s: State) {
    && WellFormed(s)
    && (forall i :: 0 <= i < s.ring.n ==>
          !s.phase[i].Announced? && s.queue[i] == [] && s.link[i] == [] && !s.declared[i])
    && (forall i: nat :: i < s.ring.n && Top(s.ring, i) ==> s.outbound[i].leader == s.ring.rank[i])
  }

  // The nodes that are about to announce a broken link.
  ghost function Breaking(s: State): set<nat>
    requires WellFormed(s)
  {
    set i: nat | 0 <= i < s.ring.n && s.phase[i].Booting?
  }

  // What a leader process still running may mean, when the nodes in `broken` have announced.
  ghost predicate MayRun(s: State, broken: set<nat>, i: nat)
    requires WellFormed(s) && i < s.ring.n
  {
    if i in broken then s.phase[i].Booting? || Top(s.ring, i)
    else forall o: nat :: o in broken && o < s.ring.n ==> Coming(s, o, i)
  }

  ghost predicate FromBroken(ms: seq<Message>, broken: set<nat>) {
    forall k :: 0 <= k < |ms| ==> ms[k].origin in broken
  }

  ghost predicate Subsiding(s: State, broken: set<nat>) {
    && Journeys(s) && s.ring.n <= s.ring.ttl
    && (forall i :: 0 <= i < s.ring.n ==> FromBroken(Channel(s, i), broken))
    && (forall i :: 0 <= i < s.ring.n && !s.phase[i].Forwarding? ==> i in broken)
    && (forall i :: 0 <= i < s.ring.n && s.inbound[i].running ==> MayRun(s, broken, i))
  }

  // A process is started only by a proposal that has come home.
  lemma OnlyHomeStarts(s: State, l: Label, broken: set<nat>, i: nat)
    requires Subsiding(s, broken) && Enabled(s, l) && i < s.ring.n
    requires |Apply(s, l).inbound| == s.ring.n && Apply(s, l).inbound[i].running && !s.inbound[i].running
    ensures l == Receive(i) && i in broken && Top(s.ring, i)
  {
    var p := Prev(i, s.ring.n);
    assert s.link[p][0] == Channel(s, p)[0];
    HomeMeansTop(s.ring, i, s.link[p][0]);
  }

  lemma StepKeepsMayRun(s: State, l: Label, broken: set<nat>, i: nat)
    requires Subsiding(s, broken) && Enabled(s, l) && i < s.ring.n
    requires Journeys(Apply(s, l)) && Apply(s, l).ring == s.ring && Apply(s, l).inbound[i].running
    ensures MayRun(Apply(s, l), broken, i)
  {
    var t := Apply(s, l);
    if !s.inbound[i].running {
      OnlyHomeStarts(s, l, broken, i);
    } else if i !in broken {
      forall o: nat | o in broken && o < s.ring.n ensures Coming(t, o, i) {
        StepKeepsComing(s, l, o, i);
        if Hears(s, l, o, i) {
          HearingStops(s, l, o, i);
        }
      }
    }
  }

  lemma StepKeepsFromBroken(s: State, l: Label, broken: set<nat>, i: nat)
    requires Subsiding(s, broken) && Enabled(s, l) && !l.Reelect? && i < s.ring.n
    ensures FromBroken(ChannelAfter(s, l, i), broken)
  {
    if l.Receive? {
      var p := Prev(l.i, s.ring.n);
      assert s.link[p][0] == Channel(s, p)[0];
    }
  }

  lemma StepKeepsSubsiding(s: State, l: Label, broken: set<nat>)
    requires Subsiding(s, broken) && Enabled(s, l) && !l.Reelect?
    ensures Subsiding(Apply(s, l), broken) && Apply(s, l).ring == s.ring
  {
    var t := Apply(s, l);
    StepKeepsJourneys(s, l);
    forall i | 0 <= i < s.ring.n ensures FromBroken(Channel(t, i), broken) {
      ChannelsMove(s, l, i);
      StepKeepsFromBroken(s, l, broken, i);
    }
    forall i | 0 <= i < s.ring.n && t.inbound[i].running ensures MayRun(t, broken, i) {
      StepKeepsMayRun(s, l, broken, i);
    }
  }

  lemma {:induction false} RunKeepsSubsiding(s: State, run: seq<Label>, broken: set<nat>)
    requires Subsiding(s, broken) && Runs(s, run) && NoReelection(run)
    ensures Subsiding(After(s, run), broken) && After(s, run).ring == s.ring
    decreases |run|
  {
    if run != [] {
      assert !run[0].Reelect?;
      StepKeepsSubsiding(s, run[0], broken);
      forall k | 0 <= k < |run[1..]| ensures !run[1..][k].Reelect? {
        assert run[1..][k] == run[k + 1];
      }
      RunKeepsSubsiding(Apply(s, run[0]), run[1..], broken);
    }
  }

  lemma DisturbedSubsides(s: State)
    requires Disturbed(s) && s.ring.n <= s.ring.ttl
    ensures Subsiding(s, Breaking(s))
  {
    assert forall i :: 0 <= i < s.ring.n ==> Channel(s, i) == [];
  }

  lemma DisturbedAgrees(s: State, w: nat)
    requires Disturbed(s) && s.ring.n <= s.ring.ttl && w in Breaking(s) && Top(s.ring, w)
    ensures Agreeing(s, w) && Told(s, w)
  {
    assert forall i :: 0 <= i < s.ring.n ==> Channel(s, i) == [];
  }

  lemma NothingComes(s: State, o: nat, i: nat)
    requires WellFormed(s) && Settled(s) && o < s.ring.n && i < s.ring.n
    ensures !Coming(s, o, i)
  {
    assert forall j :: 0 <= j < s.ring.n ==> Channel(s, j) == [];
  }

  // Once all is quiet a process runs only where the greatest node was among those that broke.
  lemma WhoStillRuns(s: State, broken: set<nat>, i: nat)
    requires Subsiding(s, broken) && Settled(s) && i < s.ring.n && s.inbound[i].running
    requires exists o: nat :: o in broken && o < s.ring.n
    ensures i in broken && Top(s.ring, i)
  {
    var o: nat :| o in broken && o < s.ring.n;
    NothingComes(s, o, i);
  }

  /** Links break at some nodes of a quiet ring within the time to live, whatever leaders the nodes
      name and run. Whoever ran a leader process is stopped; when everything has settled again,
      without a standing leader having proposed himself, there is a leader exactly if the greatest
      node is among those whose link broke, and then the whole ring agrees on it. Otherwise no leader
      process is left anywhere. */
  lemma LeaderReturnsExactlyIfGreatestBroke(s: State, run: seq<Label>, w: nat)
    requires Disturbed(s) && Breaking(s) != {} && s.ring.n <= s.ring.ttl && w < s.ring.n && Top(s.ring, w)
    requires Runs(s, run) && NoReelection(run)
    ensures WellFormed(After(s, run)) && After(s, run).ring == s.ring
    ensures Settled(After(s, run)) ==>
      if w in Breaking(s) then AllAgreeOn(After(s, run), w)
      else forall i :: 0 <= i < s.ring.n ==> !After(s, run).inbound[i].running
  {
    var broken, t := Breaking(s), After(s, run);
    DisturbedSubsides(s);
    RunKeepsSubsiding(s, run, broken);
    if Settled(t) {
      var o :| o in broken;
      forall i: nat | i < s.ring.n && t.inbound[i].running ensures i in broken && i == w {
        WhoStillRuns(t, broken, i);
      }
      if w in broken {
        DisturbedAgrees(s, w);
        RunKeepsAgreeing(s, w, run);
        SettledAgrees(t, w);
      }
    }
  }
}
