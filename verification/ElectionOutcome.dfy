/**
 What the election comes to: when the ring is no larger than the time to live and all
 messages have died, every node names the greatest node, and only that node leads.
 */
module ElectionOutcome {
  import opened RingNodes
  import opened Election

  // Links from w to i, going round the ring.
  ghost function Off(r: Ring, w: nat, i: nat): nat
    requires w < r.n && i < r.n
  {
    Dist(w, i, r.n)
  }

  // A message of another node that has yet to reach w.
  ghost predicate Heading(r: Ring, w: nat, i: nat, m: Message)
    requires w < r.n && i < r.n
  {
    m.origin < r.n && m.origin != w && Off(r, w, m.origin) <= Off(r, w, i)
  }

  predicate Winning(w: nat, m: Message) {
    m.kind.Leader? && m.origin == w
  }

  ghost predicate NoneHeading(r: Ring, w: nat, i: nat, ms: seq<Message>)
    requires w < r.n && i < r.n
  {
    forall k :: 0 <= k < |ms| ==> !Heading(r, w, i, ms[k])
  }

  // No message that still has to reach w follows the proposal of w.
  ghost predicate Quiet(r: Ring, w: nat, i: nat, ms: seq<Message>)
    requires w < r.n && i < r.n
  {
    forall a, b :: 0 <= a < b < |ms| && Winning(w, ms[a]) ==> !Heading(r, w, i, ms[b])
  }

  ghost predicate Carries(w: nat, ms: seq<Message>) {
    exists k :: 0 <= k < |ms| && Winning(w, ms[k])
  }

  // Behind distance d from w nothing is left that could still reach w, nor will be.
  ghost predicate Clear(s: State, w: nat, d: nat)
    requires WellFormed(s) && w < s.ring.n
  {
    forall i :: 0 <= i < s.ring.n && Off(s.ring, w, i) < d ==>
      s.phase[i].Forwarding? && NoneHeading(s.ring, w, i, Channel(s, i))
  }

  // Up to distance d from w every node has taken the name of w.
  ghost predicate Named(s: State, w: nat, d: nat)
    requires WellFormed(s) && w < s.ring.n
  {
    forall i :: 0 <= i < s.ring.n && 0 < Off(s.ring, w, i) <= d ==> s.inbound[i].leader == s.ring.rank[w]
  }

  ghost predicate Reached(s: State, w: nat, i: nat)
    requires WellFormed(s) && w < s.ring.n && i < s.ring.n
  {
    s.phase[i].Forwarding? && Clear(s, w, Off(s.ring, w, i)) && Named(s, w, Off(s.ring, w, i))
  }

  ghost predicate Base(s: State, w: nat) {
    Journeys(s) && w < s.ring.n && Top(s.ring, w) && s.ring.n <= s.ring.ttl
  }

  ghost predicate Proposed(s: State, w: nat)
    requires WellFormed(s) && w < s.ring.n
  {
    s.declared[w] || exists i :: 0 <= i < s.ring.n && Carries(w, Channel(s, i))
  }

  ghost predicate Won(s: State, w: nat)
    requires WellFormed(s) && w < s.ring.n
  {
    s.inbound[w].running && Clear(s, w, s.ring.n) && Named(s, w, s.ring.n - 1)
  }

  ghost predicate Agreeing(s: State, w: nat) {
    && Base(s, w)
    && (s.declared[w] ==> s.inbound[w].leader == s.ring.rank[w])
    && (forall i :: 0 <= i < s.ring.n ==> Quiet(s.ring, w, i, Channel(s, i)))
    && (forall i :: 0 <= i < s.ring.n && Carries(w, Channel(s, i)) ==> Reached(s, w, i))
    && (!s.phase[w].Booting? && s.inbound[w].running ==> s.declared[w])
    && (s.declared[w] ==> Won(s, w))
    && (s.phase[w].Forwarding? ==> Proposed(s, w))
  }

  // Nobody proposes himself again but a winner.
  ghost predicate Fair(s: State, w: nat, l: Label)
    requires WellFormed(s) && w < s.ring.n
  {
    Enabled(s, l) && (l.Reelect? ==> l.i == w && s.declared[w])
  }

  // ---------------------------------------------------------------- one step

  lemma OffStep(r: Ring, w: nat, i: nat)
    requires w < r.n && i < r.n
    ensures Prev(i, r.n) < r.n
    ensures i != w ==> Off(r, w, i) == Off(r, w, Prev(i, r.n)) + 1
    ensures i == w ==> Off(r, w, i) == 0 && Off(r, w, Prev(i, r.n)) == r.n - 1
    ensures forall j :: 0 <= j < r.n ==> (Off(r, w, j) == Off(r, w, i) <==> j == i)
    ensures Off(r, w, i) < r.n
  {
  }

  // The proposal of another node never gets past w.
  lemma ForeignProposalIsHeading(s: State, w: nat, i: nat, m: Message)
    requires Base(s, w) && i < s.ring.n && m in Channel(s, i) && m.kind.Leader? && m.origin != w
    ensures Heading(s.ring, w, i, m)
  {
    var k :| 0 <= k < |Channel(s, i)| && Channel(s, i)[k] == m;
    assert Travelled(s.ring, i, m);
    assert !(0 < Dist(m.origin, w, s.ring.n) <= Dist(m.origin, i, s.ring.n));
  }

  // A heading message is appended by a forwarding node only if it came in as one.
  lemma HeadingComesFromBehind(s: State, w: nat, l: Label)
    requires Base(s, w) && Fair(s, w, l) && !l.Send? && s.phase[l.i].Forwarding?
    requires Added(s, l) != [] && Heading(s.ring, w, l.i, Added(s, l)[0])
    ensures l.Receive? && l.i != w
    ensures var p := Prev(l.i, s.ring.n);
      p < s.ring.n && Off(s.ring, w, p) < Off(s.ring, w, l.i)
      && Channel(s, p) != [] && Heading(s.ring, w, p, Channel(s, p)[0])
  {
    if l.Receive? {
      var p := Prev(l.i, s.ring.n);
      OffStep(s.ring, w, l.i);
      assert s.link[p][0] == Channel(s, p)[0];
      assert Travelled(s.ring, p, Channel(s, p)[0]);
      PassedOn(s, l.i, s.link[p][0]);
      OffStep(s.ring, w, Added(s, l)[0].origin);
    }
  }

  lemma ClearAtKept(s: State, w: nat, l: Label, i: nat)
    requires Base(s, w) && Fair(s, w, l) && i < s.ring.n
    requires s.phase[i].Forwarding? && NoneHeading(s.ring, w, i, Channel(s, i))
    requires Clear(s, w, Off(s.ring, w, i))
    ensures NoneHeading(s.ring, w, i, ChannelAfter(s, l, i))
  {
    if !l.Send? && i == l.i && Added(s, l) != [] && Heading(s.ring, w, i, Added(s, l)[0]) {
      HeadingComesFromBehind(s, w, l);
    }
  }

  lemma StepKeepsClear(s: State, w: nat, l: Label, d: nat)
    requires Base(s, w) && Fair(s, w, l) && Clear(s, w, d)
    ensures Journeys(Apply(s, l)) && Apply(s, l).ring == s.ring && Clear(Apply(s, l), w, d)
  {
    var t := Apply(s, l);
    StepKeepsJourneys(s, l);
    forall i | 0 <= i < s.ring.n && Off(s.ring, w, i) < d
      ensures t.phase[i].Forwarding? && NoneHeading(t.ring, w, i, Channel(t, i)) {
      ClearAtKept(s, w, l, i);
      ChannelsMove(s, l, i);
    }
  }

  // What a step does to the name node i holds.
  lemma NameChanges(s: State, l: Label, i: nat)
    requires WellFormed(s) && Enabled(s, l) && i < s.ring.n
    ensures |Apply(s, l).inbound| == s.ring.n
    ensures Apply(s, l).inbound[i].leader != s.inbound[i].leader ==>
      && l == Receive(i) && s.link[Prev(i, s.ring.n)][0].kind.Leader?
      && Apply(s, l).inbound[i].leader == s.ring.rank[s.link[Prev(i, s.ring.n)][0].origin]
  {
  }

  lemma StepKeepsNamed(s: State, w: nat, l: Label, d: nat)
    requires Base(s, w) && Fair(s, w, l) && Clear(s, w, d) && Named(s, w, d)
    ensures Journeys(Apply(s, l)) && Apply(s, l).ring == s.ring && Named(Apply(s, l), w, d)
  {
    var t := Apply(s, l);
    StepKeepsJourneys(s, l);
    forall i | 0 <= i < s.ring.n && 0 < Off(s.ring, w, i) <= d
      ensures t.inbound[i].leader == s.ring.rank[w] {
      NameChanges(s, l, i);
      if t.inbound[i].leader != s.inbound[i].leader {
        var p := Prev(i, s.ring.n);
        OffStep(s.ring, w, i);
        assert s.link[p][0] == Channel(s, p)[0];
        if Channel(s, p)[0].origin != w {
          ForeignProposalIsHeading(s, w, p, Channel(s, p)[0]);
        }
      }
    }
  }

  lemma StepKeepsReached(s: State, w: nat, l: Label, i: nat)
    requires Agreeing(s, w) && Fair(s, w, l) && i < s.ring.n && Reached(s, w, i)
    ensures Journeys(Apply(s, l)) && Apply(s, l).ring == s.ring && Reached(Apply(s, l), w, i)
  {
    StepKeepsClear(s, w, l, Off(s.ring, w, i));
    StepKeepsNamed(s, w, l, Off(s.ring, w, i));
  }

  // The proposal of w at the head of a channel is taken over by the next node, whatever it is.
  lemma WinnerIsAccepted(s: State, w: nat, i: nat)
    requires Base(s, w) && Enabled(s, Receive(i)) && Winning(w, s.link[Prev(i, s.ring.n)][0])
    ensures var t := Apply(s, Receive(i));
      && |t.inbound| == |t.declared| == s.ring.n
      && t.inbound[i].leader == s.ring.rank[w]
      && (i != w ==> |Added(s, Receive(i))| == 1 && Winning(w, Added(s, Receive(i))[0]))
      && (i == w ==> t.inbound[w].running && Added(s, Receive(i)) == []
                     && t.declared[w] == (s.declared[w] || !s.inbound[w].running))
  {
    var p := Prev(i, s.ring.n);
    assert s.link[p][0] == Channel(s, p)[0];
    assert Travelled(s.ring, p, Channel(s, p)[0]);
  }

  // What the proposal of w leaves behind it in a channel holds nothing that heads for w.
  lemma NoneFollowsTheWinner(s: State, w: nat, i: nat)
    requires Base(s, w) && Enabled(s, Receive(i)) && Winning(w, s.link[Prev(i, s.ring.n)][0])
    requires Quiet(s.ring, w, Prev(i, s.ring.n), Channel(s, Prev(i, s.ring.n)))
    ensures NoneHeading(s.ring, w, Prev(i, s.ring.n), ChannelAfter(s, Receive(i), Prev(i, s.ring.n)))
  {
    var p := Prev(i, s.ring.n);
    assert s.link[p][0] == Channel(s, p)[0];
    assert NoneHeading(s.ring, w, p, Channel(s, p)[1..]);
    WinnerIsAccepted(s, w, i);
    OffStep(s.ring, w, i);
    assert p == i ==> i == w;
  }

  // Receiving the proposal of w at i: it moves one link on, and everything behind is clear.
  lemma WinnerMoves(s: State, w: nat, i: nat)
    requires Agreeing(s, w) && Enabled(s, Receive(i)) && Winning(w, s.link[Prev(i, s.ring.n)][0])
    ensures var t := Apply(s, Receive(i));
      && Journeys(t) && t.ring == s.ring
      && Clear(t, w, Off(s.ring, w, Prev(i, s.ring.n)) + 1)
      && Named(t, w, Off(s.ring, w, Prev(i, s.ring.n)))
  {
    var p := Prev(i, s.ring.n);
    assert s.link[p][0] == Channel(s, p)[0];
    assert Carries(w, Channel(s, p)) && Reached(s, w, p);
    StepKeepsReached(s, w, Receive(i), p);
    NoneFollowsTheWinner(s, w, i);
    ChannelsMove(s, Receive(i), p);
    OffStep(s.ring, w, p);
  }

  // A proposal of w that is new in a channel was queued by w or has just moved on.
  lemma NewWinner(s: State, w: nat, l: Label, i: nat)
    requires Agreeing(s, w) && Fair(s, w, l) && i < s.ring.n
    requires !Carries(w, Channel(s, i)) && Carries(w, ChannelAfter(s, l, i))
    ensures !l.Send? && l.i == i && Added(s, l) != [] && Winning(w, Added(s, l)[0])
    ensures i == w || (l.Receive? && Winning(w, s.link[Prev(i, s.ring.n)][0]))
  {
    var k :| 0 <= k < |ChannelAfter(s, l, i)| && Winning(w, ChannelAfter(s, l, i)[k]);
    var m := ChannelAfter(s, l, i)[k];
    assert m in Channel(s, i) || (!l.Send? && i == l.i && m in Added(s, l));
  }

  lemma StepKeepsReachedBehindWinner(s: State, w: nat, l: Label, i: nat)
    requires Agreeing(s, w) && Fair(s, w, l) && i < s.ring.n && Carries(w, ChannelAfter(s, l, i))
    ensures Journeys(Apply(s, l)) && Apply(s, l).ring == s.ring && Reached(Apply(s, l), w, i)
  {
    StepKeepsJourneys(s, l);
    if Carries(w, Channel(s, i)) {
      StepKeepsReached(s, w, l, i);
    } else {
      NewWinner(s, w, l, i);
      OffStep(s.ring, w, i);
      if i != w {
        WinnerMoves(s, w, i);
        WinnerIsAccepted(s, w, i);
      }
    }
  }

  lemma QuietAppend(r: Ring, w: nat, i: nat, ms: seq<Message>, more: seq<Message>)
    requires w < r.n && i < r.n && Quiet(r, w, i, ms) && |more| <= 1
    requires Carries(w, ms) ==> NoneHeading(r, w, i, more)
    ensures Quiet(r, w, i, ms + more)
  {
  }

  lemma QuietTail(r: Ring, w: nat, i: nat, ms: seq<Message>)
    requires w < r.n && i < r.n && Quiet(r, w, i, ms) && ms != []
    ensures Quiet(r, w, i, ms[1..]) && (Carries(w, ms[1..]) ==> Carries(w, ms))
  {
    if k :| 0 <= k < |ms[1..]| && Winning(w, ms[1..][k]) {
      assert Winning(w, ms[k + 1]);
    }
  }

  lemma NothingHeadingIsAppended(s: State, w: nat, l: Label)
    requires Agreeing(s, w) && Fair(s, w, l) && !l.Send? && Carries(w, Channel(s, l.i))
    ensures NoneHeading(s.ring, w, l.i, Added(s, l))
  {
    if Added(s, l) != [] && Heading(s.ring, w, l.i, Added(s, l)[0]) {
      HeadingComesFromBehind(s, w, l);
    }
  }

  lemma StepKeepsQuiet(s: State, w: nat, l: Label, i: nat)
    requires Agreeing(s, w) && Fair(s, w, l) && i < s.ring.n
    ensures Quiet(s.ring, w, i, ChannelAfter(s, l, i))
  {
    assert Quiet(s.ring, w, i, Channel(s, i));
    if !l.Send? {
      var kept := Channel(s, i);
      if l.Receive? && i == Prev(l.i, s.ring.n) {
        QuietTail(s.ring, w, i, kept);
        kept := kept[1..];
      }
      if i == l.i {
        if Carries(w, kept) {
          NothingHeadingIsAppended(s, w, l);
        }
        QuietAppend(s.ring, w, i, kept, Added(s, l));
      }
    }
  }

  // Nothing stops the process of a winner any more.
  lemma WinnerKeepsRunning(s: State, w: nat, l: Label)
    requires Agreeing(s, w) && Fair(s, w, l) && s.declared[w]
    ensures |Apply(s, l).inbound| == s.ring.n && Apply(s, l).inbound[w].running
  {
    var p := Prev(w, s.ring.n);
    OffStep(s.ring, w, w);
    if l == Receive(w) {
      assert s.link[p][0] == Channel(s, p)[0];
      OffStep(s.ring, w, s.link[p][0].origin);
    }
  }

  lemma StepKeepsWon(s: State, w: nat, l: Label)
    requires Agreeing(s, w) && Fair(s, w, l)
    ensures var t := Apply(s, l);
      && Journeys(t) && t.ring == s.ring
      && (t.declared[w] ==> Won(t, w))
      && (!t.phase[w].Booting? && t.inbound[w].running ==> t.declared[w])
  {
    var t := Apply(s, l);
    StepKeepsJourneys(s, l);
    if s.declared[w] {
      WinnerKeepsRunning(s, w, l);
      StepKeepsClear(s, w, l, s.ring.n);
      StepKeepsNamed(s, w, l, s.ring.n - 1);
    } else if t.declared[w] || (!t.phase[w].Booting? && t.inbound[w].running) {
      assert l == Receive(w);
      OffStep(s.ring, w, w);
      WinnerMoves(s, w, w);
      WinnerIsAccepted(s, w, w);
    }
  }

  // A proposal of w that is in flight stays in flight or elects w.
  lemma WinnerNotLost(s: State, w: nat, l: Label, j: nat, k: nat)
    requires Agreeing(s, w) && Fair(s, w, l) && !s.inbound[w].running
    requires j < s.ring.n && k < |Channel(s, j)| && Winning(w, Channel(s, j)[k])
    ensures |Apply(s, l).declared| == s.ring.n
    ensures Apply(s, l).declared[w] || exists i :: 0 <= i < s.ring.n && Carries(w, ChannelAfter(s, l, i))
  {
    if l.Receive? && j == Prev(l.i, s.ring.n) {
      if k == 0 {
        assert s.link[j][0] == Channel(s, j)[0];
        WinnerIsAccepted(s, w, l.i);
        if l.i != w {
          var c := ChannelAfter(s, l, l.i);
          assert Winning(w, c[|c| - 1]);
        }
      } else {
        assert ChannelAfter(s, l, j)[k - 1] == Channel(s, j)[k];
      }
    } else {
      assert ChannelAfter(s, l, j)[k] == Channel(s, j)[k];
    }
  }

  lemma ProposalStays(s: State, w: nat, l: Label)
    requires Agreeing(s, w) && Fair(s, w, l) && l != Propose(w)
    requires Journeys(Apply(s, l)) && Apply(s, l).ring == s.ring
    requires Apply(s, l).phase[w].Forwarding? && !Apply(s, l).declared[w]
    ensures Proposed(Apply(s, l), w)
  {
    assert s.phase[w].Forwarding? && !s.declared[w];
    var j :| 0 <= j < s.ring.n && Carries(w, Channel(s, j));
    var k :| 0 <= k < |Channel(s, j)| && Winning(w, Channel(s, j)[k]);
    WinnerNotLost(s, w, l, j, k);
    var i :| 0 <= i < s.ring.n && Carries(w, ChannelAfter(s, l, i));
    ChannelsMove(s, l, i);
  }

  // The proposal of w is never lost before it comes home.
  lemma StepKeepsProposed(s: State, w: nat, l: Label)
    requires Agreeing(s, w) && Fair(s, w, l)
    ensures var t := Apply(s, l); Journeys(t) && t.ring == s.ring && (t.phase[w].Forwarding? ==> Proposed(t, w))
  {
    var t := Apply(s, l);
    StepKeepsJourneys(s, l);
    if l == Propose(w) {
      ChannelsMove(s, l, w);
      assert Winning(w, Channel(t, w)[|Channel(s, w)|]);
    } else if t.phase[w].Forwarding? && !t.declared[w] {
      ProposalStays(s, w, l);
    }
  }

  lemma WinnerKeepsOwnName(s: State, w: nat, l: Label)
    requires Agreeing(s, w) && Fair(s, w, l)
    ensures |Apply(s, l).inbound| == |Apply(s, l).declared| == s.ring.n
    ensures Apply(s, l).declared[w] ==> Apply(s, l).inbound[w].leader == s.ring.rank[w]
  {
  }

  lemma StepKeepsAgreeing(s: State, w: nat, l: Label)
    requires Agreeing(s, w) && Fair(s, w, l)
    ensures Agreeing(Apply(s, l), w) && Apply(s, l).ring == s.ring
  {
    var t := Apply(s, l);
    StepKeepsJourneys(s, l);
    WinnerKeepsOwnName(s, w, l);
    StepKeepsWon(s, w, l);
    StepKeepsProposed(s, w, l);
    forall i | 0 <= i < s.ring.n
      ensures Quiet(s.ring, w, i, Channel(t, i)) && (Carries(w, Channel(t, i)) ==> Reached(t, w, i)) {
      ChannelsMove(s, l, i);
      StepKeepsQuiet(s, w, l, i);
      if Carries(w, Channel(t, i)) {
        StepKeepsReachedBehindWinner(s, w, l, i);
      }
    }
  }

  // ---------------------------------------------------------------- the outbound names

  // The proposal of w has been sent on by node i.
  ghost predicate SentOn(s: State, w: nat, i: nat)
    requires WellFormed(s) && w < s.ring.n && i < s.ring.n
  {
    s.declared[w] || Carries(w, s.link[i])
    || exists j :: 0 <= j < s.ring.n && Off(s.ring, w, i) < Off(s.ring, w, j) && Carries(w, Channel(s, j))
  }

  // Whoever has sent it on names w at its outbound end.
  ghost predicate Told(s: State, w: nat)
    requires WellFormed(s) && w < s.ring.n
  {
    && s.outbound[w].leader == s.ring.rank[w]
    && forall i :: 0 <= i < s.ring.n && i != w && SentOn(s, w, i) ==> s.outbound[i].leader == s.ring.rank[w]
  }

  // Behind the proposal of w a node has nothing to send that is on its way to w.
  lemma QuietBehindSent(s: State, w: nat, i: nat)
    requires Agreeing(s, w) && i < s.ring.n && SentOn(s, w, i)
    ensures NoneHeading(s.ring, w, i, s.queue[i])
  {
    var c := Channel(s, i);
    if s.declared[w] {
      OffStep(s.ring, w, i);
    } else if Carries(w, s.link[i]) {
      var a :| 0 <= a < |s.link[i]| && Winning(w, s.link[i][a]);
      assert Winning(w, c[a]);
    }
    forall k | 0 <= k < |s.queue[i]| ensures !Heading(s.ring, w, i, s.queue[i][k]) {
      assert s.queue[i][k] == c[|s.link[i]| + k];
    }
  }

  lemma NothingElseToSend(s: State, w: nat, i: nat)
    requires Agreeing(s, w) && i < s.ring.n && SentOn(s, w, i)
    requires s.queue[i] != [] && s.queue[i][0].kind.Leader?
    ensures s.queue[i][0].origin == w
  {
    var m := s.queue[i][0];
    QuietBehindSent(s, w, i);
    assert m == Channel(s, i)[|s.link[i]|];
    if m.origin != w {
      ForeignProposalIsHeading(s, w, i, m);
    }
  }

  // What node j receives has been sent on by all nodes behind it.
  lemma ReceivedWasSent(s: State, w: nat, j: nat, i: nat)
    requires Base(s, w) && Enabled(s, Receive(j)) && Winning(w, s.link[Prev(j, s.ring.n)][0])
    requires i < s.ring.n && i != w && (j == w || Off(s.ring, w, i) < Off(s.ring, w, j))
    ensures SentOn(s, w, i)
  {
    var p := Prev(j, s.ring.n);
    OffStep(s.ring, w, j);
    OffStep(s.ring, w, i);
    assert Carries(w, s.link[p]);
    assert s.link[p][0] == Channel(s, p)[0];
    assert Carries(w, Channel(s, p));
    assert p == i || Off(s.ring, w, i) < Off(s.ring, w, p);
  }

  lemma LinkedBefore(s: State, w: nat, l: Label, i: nat)
    requires WellFormed(s) && Enabled(s, l) && w < s.ring.n && i < s.ring.n
    ensures |Apply(s, l).link| == s.ring.n
    ensures Carries(w, Apply(s, l).link[i]) ==>
      Carries(w, s.link[i]) || (l == Send(i) && Winning(w, s.queue[i][0]))
  {
    var now := Apply(s, l).link[i];
    if a :| 0 <= a < |now| && Winning(w, now[a]) {
      assert now[a] in s.link[i] || (l == Send(i) && now[a] == s.queue[i][0]);
    }
  }

  lemma CarriedBefore(s: State, w: nat, l: Label, i: nat, j: nat)
    requires Agreeing(s, w) && Fair(s, w, l) && i < s.ring.n && i != w && j < s.ring.n
    requires Off(s.ring, w, i) < Off(s.ring, w, j) && Carries(w, ChannelAfter(s, l, j))
    ensures SentOn(s, w, i)
  {
    if !Carries(w, Channel(s, j)) {
      NewWinner(s, w, l, j);
      OffStep(s.ring, w, j);
      ReceivedWasSent(s, w, j, i);
    }
  }

  lemma ElectedBefore(s: State, w: nat, l: Label, i: nat)
    requires Agreeing(s, w) && Fair(s, w, l) && i < s.ring.n && i != w
    requires |Apply(s, l).declared| == s.ring.n && Apply(s, l).declared[w]
    ensures SentOn(s, w, i)
  {
    if !s.declared[w] {
      assert l == Receive(w);
      ReceivedWasSent(s, w, w, i);
    }
  }

  // The proposal of w moves from node to node.
  lemma SentOnBefore(s: State, w: nat, l: Label, i: nat)
    requires Agreeing(s, w) && Fair(s, w, l) && i < s.ring.n && i != w
    requires Journeys(Apply(s, l)) && Apply(s, l).ring == s.ring && SentOn(Apply(s, l), w, i)
    ensures SentOn(s, w, i) || (l == Send(i) && Winning(w, s.queue[i][0]))
  {
    var t := Apply(s, l);
    LinkedBefore(s, w, l, i);
    if t.declared[w] {
      ElectedBefore(s, w, l, i);
    } else if !Carries(w, t.link[i]) {
      var j :| 0 <= j < s.ring.n && Off(s.ring, w, i) < Off(s.ring, w, j) && Carries(w, Channel(t, j));
      ChannelsMove(s, l, j);
      CarriedBefore(s, w, l, i, j);
    }
  }

  lemma StepKeepsTold(s: State, w: nat, l: Label)
    requires Agreeing(s, w) && Told(s, w) && Fair(s, w, l)
    ensures WellFormed(Apply(s, l)) && Apply(s, l).ring == s.ring && Told(Apply(s, l), w)
  {
    var t := Apply(s, l);
    StepKeepsJourneys(s, l);
    forall i | 0 <= i < s.ring.n && i != w && SentOn(t, w, i) ensures t.outbound[i].leader == s.ring.rank[w] {
      SentOnBefore(s, w, l, i);
      if l == Send(i) && s.queue[i][0].kind.Leader? && SentOn(s, w, i) {
        NothingElseToSend(s, w, i);
      }
    }
  }

  // ---------------------------------------------------------------- whole runs

  lemma InitAgreeing(s: State, w: nat)
    requires Init(s) && w < s.ring.n && Top(s.ring, w) && s.ring.n <= s.ring.ttl
    ensures Agreeing(s, w) && Told(s, w)
  {
    InitSafe(s);
    assert forall i :: 0 <= i < s.ring.n ==> Channel(s, i) == [];
  }

  predicate NoReelection(run: seq<Label>) {
    forall k :: 0 <= k < |run| ==> !run[k].Reelect?
  }

  // In a safe state only a winner can propose itself again.
  lemma SafeIsFair(s: State, w: nat, l: Label)
    requires Agreeing(s, w) && Safe(s) && Enabled(s, l)
    ensures Fair(s, w, l)
  {
  }

  lemma {:induction false} RunKeepsAgreeing(s: State, w: nat, run: seq<Label>)
    requires Agreeing(s, w) && Told(s, w) && Runs(s, run) && (Safe(s) || NoReelection(run))
    ensures Agreeing(After(s, run), w) && Told(After(s, run), w) && After(s, run).ring == s.ring
    decreases |run|
  {
    if run != [] {
      if Safe(s) {
        SafeIsFair(s, w, run[0]);
        StepKeepsSafe(s, run[0]);
      } else {
        assert !run[0].Reelect?;
        forall k | 0 <= k < |run[1..]| ensures !run[1..][k].Reelect? {
          assert run[1..][k] == run[k + 1];
        }
      }
      StepKeepsAgreeing(s, w, run[0]);
      StepKeepsTold(s, w, run[0]);
      RunKeepsAgreeing(Apply(s, run[0]), w, run[1..]);
    }
  }

  // Nothing is in flight and every node has started to forward.
  ghost predicate Settled(s: State)
    requires WellFormed(s)
  {
    forall i :: 0 <= i < s.ring.n ==> s.phase[i].Forwarding? && s.queue[i] == [] && s.link[i] == []
  }

  ghost predicate AllAgreeOn(s: State, w: nat)
    requires WellFormed(s) && w < s.ring.n
  {
    forall i :: 0 <= i < s.ring.n ==>
      && s.inbound[i].leader == s.ring.rank[w] && s.outbound[i].leader == s.ring.rank[w]
      && (s.inbound[i].running <==> i == w)
  }

  // A settled ring around which the proposal of w has gone.
  lemma SettledAgrees(s: State, w: nat)
    requires Agreeing(s, w) && Told(s, w) && Settled(s)
    requires forall i :: 0 <= i < s.ring.n && i != w ==> !s.inbound[i].running
    ensures AllAgreeOn(s, w)
  {
    assert forall i :: 0 <= i < s.ring.n ==> Channel(s, i) == [];
    assert s.declared[w];
    forall i | 0 <= i < s.ring.n
      ensures s.inbound[i].leader == s.ring.rank[w] == s.outbound[i].leader && (s.inbound[i].running <==> i == w) {
      OffStep(s.ring, w, i);
    }
  }

  /** The election succeeds exactly on rings no larger than the time to live: once everything
      has settled, every node names the greatest node at both its ends, whose leader process is the only one
      running. On a larger ring no leader process runs anywhere. */
  lemma SettledRingAgrees(s: State, run: seq<Label>, w: nat)
    requires Init(s) && Runs(s, run) && w < s.ring.n && Top(s.ring, w)
    ensures WellFormed(After(s, run)) && After(s, run).ring == s.ring
    ensures Settled(After(s, run)) ==>
              (s.ring.n <= s.ring.ttl <==> AllAgreeOn(After(s, run), w))
    ensures s.ring.n > s.ring.ttl ==>
              forall i :: 0 <= i < s.ring.n ==> !After(s, run).inbound[i].running
  {
    var t := After(s, run);
    InitSafe(s);
    RunKeepsSafe(s, run);
    if s.ring.n <= s.ring.ttl && Settled(t) {
      InitAgreeing(s, w);
      RunKeepsAgreeing(s, w, run);
      SettledAgrees(t, w);
    }
  }

  /** After the election of w no LinkBroken of another node is in any channel on its way to w,
      and none arrives. */
  lemma NoBreakAfterElection(s: State, run: seq<Label>, w: nat)
    requires Init(s) && Runs(s, run) && w < s.ring.n
    ensures WellFormed(After(s, run)) && After(s, run).ring == s.ring
    ensures var t := After(s, run); t.declared[w] ==>
      && t.inbound[w].running
      && (Enabled(t, Receive(w)) ==> t.link[Prev(w, s.ring.n)][0].origin == w)
      && forall i, m :: 0 <= i < s.ring.n && m in Channel(t, i) ==> !Heading(s.ring, w, i, m)
  {
    var t := After(s, run);
    InitSafe(s);
    RunKeepsSafe(s, run);
    if t.declared[w] {
      InitAgreeing(s, w);
      RunKeepsAgreeing(s, w, run);
      forall i, m | 0 <= i < s.ring.n && m in Channel(t, i) ensures !Heading(s.ring, w, i, m) {
        OffStep(s.ring, w, i);
      }
      if Enabled(t, Receive(w)) {
        var p := Prev(w, s.ring.n);
        OffStep(s.ring, w, w);
        assert t.link[p][0] == Channel(t, p)[0];
        OffStep(s.ring, w, t.link[p][0].origin);
        assert !Heading(s.ring, w, p, t.link[p][0]);
      }
    }
  }
}
