/**
 The election of a leader on a stable ring of any size. Every node first queues a LinkBroken
 and then a Leader proposal, both in its own name, and only then starts to forward; each link
 is a first-in first-out queue (the node's outbound queue followed by the socket).

 Names are distinct, so a name is represented by the node that owns it; `rank` gives the
 order of the names.
 */
module Election {
  import opened RingNodes

  datatype Message = Message(kind: Kind, origin: nat, ttl: nat)

  datatype Phase = Booting | Announced | Forwarding

  datatype Ring = Ring(n: nat, ttl: nat, rank: seq<int>)

  datatype State = State(
    ring: Ring,
    phase: seq<Phase>,
    inbound: seq<Inbound>, outbound: seq<Outbound>,
    queue: seq<seq<Message>>,    // queue[i]: messages waiting to be sent by node i
    link: seq<seq<Message>>,     // link[i]: messages sent by i and not yet received by its successor
    declared: seq<bool>)         // node i has ever elected itself

  datatype Label = Announce(i: nat) | Propose(i: nat) | Send(i: nat) | Receive(i: nat) | Reelect(i: nat)

  function Next(i: nat, n: nat): nat
    requires i < n
  {
    if i + 1 == n then 0 else i + 1
  }

  function Prev(i: nat, n: nat): nat
    requires i < n
  {
    if i == 0 then n - 1 else i - 1
  }

  // Links to cross from node a to node b.
  function Dist(a: nat, b: nat, n: nat): nat
    requires a < n && b < n
  {
    if b >= a then b - a else b + n - a
  }

  ghost predicate FromRing(ms: seq<Message>, n: nat) {
    forall k :: 0 <= k < |ms| ==> ms[k].origin < n
  }

  ghost predicate WellFormed(s: State) {
    var n := s.ring.n;
    && n >= 1
    && |s.ring.rank| == |s.phase| == |s.inbound| == |s.outbound| == |s.queue| == |s.link| == |s.declared| == n
    && (forall i, j :: 0 <= i < j < n ==> s.ring.rank[i] != s.ring.rank[j])
    && (forall i :: 0 <= i < n ==> s.inbound[i].self == s.outbound[i].self == s.ring.rank[i])
    && (forall i :: 0 <= i < n ==> FromRing(s.queue[i], n) && FromRing(s.link[i], n))
  }

  ghost predicate Enabled(s: State, l: Label)
    requires WellFormed(s)
  {
    && l.i < s.ring.n
    && match l
       case Announce(i) => s.phase[i].Booting?
       case Propose(i) => s.phase[i].Announced?
       case Send(i) => s.queue[i] != []
       case Receive(i) => s.phase[i].Forwarding? && s.link[Prev(i, s.ring.n)] != []
       case Reelect(i) => s.phase[i].Forwarding? && s.inbound[i].running
  }

  ghost function Push(s: State, i: nat, m: Message): State
    requires i < |s.queue|
  {
    s.(queue := s.queue[i := s.queue[i] + [m]])
  }

  ghost function ApplySend(s: State, i: nat): State
    requires WellFormed(s) && i < s.ring.n && s.queue[i] != []
  {
    var m := s.queue[i][0];
    var r := HandleOutbound(s.outbound[i], m.kind, s.ring.rank[m.origin]);
    s.(queue := s.queue[i := s.queue[i][1..]], outbound := s.outbound[i := r.node],
       link := if r.forward then s.link[i := s.link[i] + [m]] else s.link)
  }

  // A message that arrives with no time to live is dropped unseen.
  ghost function ApplyReceive(s: State, i: nat): State
    requires WellFormed(s) && i < s.ring.n && s.link[Prev(i, s.ring.n)] != []
  {
    var p := Prev(i, s.ring.n);
    var m := s.link[p][0];
    var s1 := s.(link := s.link[p := s.link[p][1..]]);
    if m.ttl == 0 then s1
    else
      var r := HandleInbound(s.inbound[i], m.kind, s.ring.rank[m.origin]);
      var s2 := s1.(inbound := s.inbound[i := r.node], declared := s.declared[i := s.declared[i] || r.elected]);
      if r.forward then Push(s2, i, m.(ttl := m.ttl - 1)) else s2
  }

  ghost function Apply(s: State, l: Label): State
    requires WellFormed(s) && Enabled(s, l)
  {
    match l
    case Announce(i) =>
      Push(s, i, Message(LinkBroken, i, s.ring.ttl))
        .(phase := s.phase[i := Announced], inbound := s.inbound[i := s.inbound[i].(running := false)])
    case Propose(i) => Push(s, i, Message(Leader, i, s.ring.ttl)).(phase := s.phase[i := Forwarding])
    case Send(i) => ApplySend(s, i)
    case Receive(i) => ApplyReceive(s, i)
    case Reelect(i) => Push(s, i, Message(Leader, i, s.ring.ttl))
  }

  ghost predicate Runs(s: State, run: seq<Label>)
    decreases |run|
  {
    run == [] || (WellFormed(s) && Enabled(s, run[0]) && Runs(Apply(s, run[0]), run[1..]))
  }

  ghost function After(s: State, run: seq<Label>): State
    requires Runs(s, run)
    decreases |run|
  {
    if run == [] then s else After(Apply(s, run[0]), run[1..])
  }

  ghost predicate Init(s: State) {
    && WellFormed(s)
    && (forall i :: 0 <= i < s.ring.n ==>
      && s.phase[i].Booting? && s.queue[i] == [] && s.link[i] == [] && !s.declared[i]
      && s.inbound[i] == Inbound(s.ring.rank[i], s.ring.rank[i], false)
      && s.outbound[i] == Outbound(s.ring.rank[i], s.ring.rank[i]))
  }

  // ---------------------------------------------------------------- safety

  // All messages between node i and its successor, oldest first.
  ghost function Channel(s: State, i: nat): seq<Message>
    requires i < |s.link| && i < |s.queue|
  {
    s.link[i] + s.queue[i]
  }

  ghost predicate Top(r: Ring, w: nat)
    requires |r.rank| == r.n
  {
    w < r.n && forall k :: 0 <= k < r.n && k != w ==> r.rank[k] < r.rank[w]
  }

  // A message that has left node i carries its distance from home in its time to live, and
  // a proposal has beaten every node it has crossed.
  ghost predicate Travelled(r: Ring, i: nat, m: Message)
    requires |r.rank| == r.n && i < r.n
  {
    && m.origin < r.n
    && Dist(m.origin, i, r.n) + m.ttl == r.ttl
    && (m.kind.Leader? ==>
          forall k :: 0 <= k < r.n && 0 < Dist(m.origin, k, r.n) <= Dist(m.origin, i, r.n) ==>
            r.rank[k] < r.rank[m.origin])
  }

  ghost predicate AllTravelled(r: Ring, i: nat, ms: seq<Message>)
    requires |r.rank| == r.n && i < r.n
  {
    forall k :: 0 <= k < |ms| ==> Travelled(r, i, ms[k])
  }

  // Every message on its way has come as far as it says, whatever the nodes hold.
  ghost predicate Journeys(s: State) {
    && WellFormed(s)
    && (forall i :: 0 <= i < s.ring.n ==> AllTravelled(s.ring, i, Channel(s, i)))
  }

  ghost predicate Safe(s: State) {
    && Journeys(s)
    && (forall i :: 0 <= i < s.ring.n && (s.declared[i] || s.inbound[i].running) ==>
          Top(s.ring, i) && s.ring.n <= s.ring.ttl)
  }

  lemma StepInRing(o: nat, i: nat, n: nat)
    requires o < n && i < n
    ensures Prev(i, n) < n && Next(Prev(i, n), n) == i
    ensures i != o ==> Dist(o, i, n) == Dist(o, Prev(i, n), n) + 1
    ensures i == o ==> Dist(o, Prev(i, n), n) == n - 1
  {
  }

  // A proposal that comes home has beaten every other node, within its time to live; the
  // number of members it reports is right.
  lemma HomeMeansTop(r: Ring, i: nat, m: Message)
    requires |r.rank| == r.n && i < r.n && Travelled(r, Prev(i, r.n), m)
    requires m.kind.Leader? && m.origin == i && m.ttl > 0
    ensures Top(r, i) && r.n <= r.ttl && r.ttl - m.ttl + 1 == r.n
  {
    StepInRing(m.origin, i, r.n);
    forall k | 0 <= k < r.n && k != i ensures r.rank[k] < r.rank[i] {
      assert 0 < Dist(i, k, r.n) <= r.n - 1;
    }
  }

  // A message that node i lets pass goes on as a travelled message.
  lemma PassedOn(s: State, i: nat, m: Message)
    requires WellFormed(s) && i < s.ring.n && Travelled(s.ring, Prev(i, s.ring.n), m) && m.ttl > 0
    requires HandleInbound(s.inbound[i], m.kind, s.ring.rank[m.origin]).forward
    ensures i != m.origin && Travelled(s.ring, i, m.(ttl := m.ttl - 1))
  {
    StepInRing(m.origin, i, s.ring.n);
    forall k | 0 <= k < s.ring.n && Dist(m.origin, k, s.ring.n) == Dist(m.origin, i, s.ring.n) ensures k == i {
    }
  }

  // What node i appends to its channel when it takes a step other than Send.
  ghost function Added(s: State, l: Label): seq<Message>
    requires WellFormed(s) && Enabled(s, l) && !l.Send?
  {
    match l
    case Announce(i) => [Message(LinkBroken, i, s.ring.ttl)]
    case Receive(i) =>
      var m := s.link[Prev(i, s.ring.n)][0];
      if m.ttl > 0 && HandleInbound(s.inbound[i], m.kind, s.ring.rank[m.origin]).forward
      then [m.(ttl := m.ttl - 1)] else []
    case _ => [Message(Leader, l.i, s.ring.ttl)]
  }

  // How a step changes the channels, node by node.
  ghost function ChannelAfter(s: State, l: Label, j: nat): seq<Message>
    requires WellFormed(s) && Enabled(s, l) && j < s.ring.n
  {
    if l.Send? then Channel(s, j)
    else
      var kept := if l.Receive? && j == Prev(l.i, s.ring.n) then Channel(s, j)[1..] else Channel(s, j);
      if j == l.i then kept + Added(s, l) else kept
  }

  // The outbound filter never drops a message: the inbound driver has dropped it already.
  lemma OutboundNeverDrops(s: State, i: nat)
    requires Journeys(s) && i < s.ring.n && s.queue[i] != []
    ensures HandleOutbound(s.outbound[i], s.queue[i][0].kind, s.ring.rank[s.queue[i][0].origin]).forward
  {
    var m := s.queue[i][0];
    assert Channel(s, i)[|s.link[i]|] == m;
    assert Travelled(s.ring, i, m);
    assert m.origin != i ==> 0 < Dist(m.origin, i, s.ring.n) <= Dist(m.origin, i, s.ring.n);
  }

  lemma SendLeavesChannels(s: State, i: nat, j: nat)
    requires Journeys(s) && Enabled(s, Send(i)) && j < s.ring.n
    ensures var t := Apply(s, Send(i)); |t.link| == |t.queue| == s.ring.n && Channel(t, j) == Channel(s, j)
  {
    OutboundNeverDrops(s, i);
    if j == i {
      assert s.queue[i] == [s.queue[i][0]] + s.queue[i][1..];
    }
  }

  lemma Appended(link: seq<Message>, queue: seq<Message>, more: seq<Message>)
    ensures link + (queue + more) == link + queue + more
    ensures link != [] ==> (link + queue)[1..] == link[1..] + queue
    ensures link != [] ==> link[1..] + (queue + more) == (link + queue)[1..] + more
  {
  }

  lemma ReceiveMoves(s: State, i: nat, j: nat)
    requires WellFormed(s) && Enabled(s, Receive(i)) && j < s.ring.n
    ensures var t := Apply(s, Receive(i)); |t.link| == |t.queue| == s.ring.n && Channel(t, j) == ChannelAfter(s, Receive(i), j)
  {
    var t, p, more := Apply(s, Receive(i)), Prev(i, s.ring.n), Added(s, Receive(i));
    assert t.queue == if more == [] then s.queue else s.queue[i := s.queue[i] + more];
    assert t.link == s.link[p := s.link[p][1..]];
    Appended(s.link[j], s.queue[j], more);
  }

  lemma ChannelsMove(s: State, l: Label, j: nat)
    requires Journeys(s) && Enabled(s, l) && j < s.ring.n
    ensures var t := Apply(s, l); |t.link| == |t.queue| == s.ring.n && Channel(t, j) == ChannelAfter(s, l, j)
  {
    if l.Send? {
      SendLeavesChannels(s, l.i, j);
    } else if l.Receive? {
      ReceiveMoves(s, l.i, j);
    } else {
      Appended(s.link[j], s.queue[j], Added(s, l));
    }
  }

  lemma AddedTravelled(s: State, l: Label)
    requires Journeys(s) && Enabled(s, l) && !l.Send?
    ensures AllTravelled(s.ring, l.i, Added(s, l))
  {
    if l.Receive? {
      var p := Prev(l.i, s.ring.n);
      assert s.link[p][0] == Channel(s, p)[0];
      if Added(s, l) != [] {
        PassedOn(s, l.i, s.link[p][0]);
      }
    }
  }

  lemma StepKeepsWellFormed(s: State, l: Label)
    requires WellFormed(s) && Enabled(s, l)
    ensures WellFormed(Apply(s, l)) && Apply(s, l).ring == s.ring
  {
    if l.Send? {
      assert FromRing(s.queue[l.i], s.ring.n);
    } else if l.Receive? {
      assert FromRing(s.link[Prev(l.i, s.ring.n)], s.ring.n);
    }
  }

  lemma OnlyTopDeclares(s: State, l: Label, i: nat)
    requires Safe(s) && Enabled(s, l) && i < s.ring.n
    requires WellFormed(Apply(s, l)) && Apply(s, l).ring == s.ring
    requires Apply(s, l).declared[i] || Apply(s, l).inbound[i].running
    ensures Top(s.ring, i) && s.ring.n <= s.ring.ttl
  {
    if l == Receive(i) && !s.declared[i] && !s.inbound[i].running {
      var p := Prev(i, s.ring.n);
      assert s.link[p][0] == Channel(s, p)[0];
      HomeMeansTop(s.ring, i, s.link[p][0]);
    }
  }

  lemma StepKeepsJourneys(s: State, l: Label)
    requires Journeys(s) && Enabled(s, l)
    ensures Journeys(Apply(s, l)) && Apply(s, l).ring == s.ring
  {
    var t := Apply(s, l);
    StepKeepsWellFormed(s, l);
    forall j | 0 <= j < s.ring.n ensures AllTravelled(s.ring, j, Channel(t, j)) {
      ChannelsMove(s, l, j);
      if !l.Send? {
        AddedTravelled(s, l);
      }
    }
  }

  lemma StepKeepsSafe(s: State, l: Label)
    requires Safe(s) && Enabled(s, l)
    ensures Safe(Apply(s, l)) && Apply(s, l).ring == s.ring
  {
    var t := Apply(s, l);
    StepKeepsJourneys(s, l);
    forall i | 0 <= i < s.ring.n && (t.declared[i] || t.inbound[i].running)
      ensures Top(s.ring, i) && s.ring.n <= s.ring.ttl {
      OnlyTopDeclares(s, l, i);
    }
  }

  lemma InitSafe(s: State)
    requires Init(s)
    ensures Safe(s)
  {
  }

  lemma {:induction false} RunKeepsSafe(s: State, run: seq<Label>)
    requires Safe(s) && Runs(s, run)
    ensures Safe(After(s, run)) && After(s, run).ring == s.ring
    decreases |run|
  {
    if run != [] {
      StepKeepsSafe(s, run[0]);
      RunKeepsSafe(Apply(s, run[0]), run[1..]);
    }
  }

  /** In every reachable state a node that has ever elected itself has the greatest name, so
      there are never two; and on a ring larger than the time to live nobody does. */
  lemma OnlyTheGreatestIsElected(s: State, run: seq<Label>, i: nat)
    requires Init(s) && Runs(s, run) && i < s.ring.n
    ensures WellFormed(After(s, run)) && After(s, run).ring == s.ring
    ensures After(s, run).declared[i] || After(s, run).inbound[i].running ==>
              Top(s.ring, i) && s.ring.n <= s.ring.ttl
  {
    InitSafe(s);
    RunKeepsSafe(s, run);
  }
}
