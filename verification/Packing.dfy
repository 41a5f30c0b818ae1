/** Packing the bags of a flight into containers, one open container for every stop. */
module Packing {
  import opened Bags

  const MAX_WEIGHT := 3000
  const MAX_BAGS := 30

  // A container travels by value.
  datatype Container = Container(weight: int, bags: seq<Bag>)

  const EMPTY := Container(0, [])

  datatype Added = Added(container: Container) | NoRoom | TooMany

  function HasRoom(c: Container, b: Bag): bool {
    |c.bags| != MAX_BAGS && b.weight + c.weight <= MAX_WEIGHT
  }

  // The two errors are the exceptions of the source.
  function Add(c: Container, b: Bag): Added {
    if !HasRoom(c, b) then NoRoom
    else if |c.bags| > MAX_BAGS then TooMany
    else Added(Container(c.weight + b.weight, c.bags + [b]))
  }

  function Weight(bags: seq<Bag>): int {
    if bags == [] then 0 else Weight(bags[..|bags| - 1]) + bags[|bags| - 1].weight
  }

  // Within both limits, with bags for one stop only, none heavier than a container.
  ghost predicate Proper(c: Container, stop: string) {
    && c.weight == Weight(c.bags) <= MAX_WEIGHT && |c.bags| <= MAX_BAGS
    && forall k :: 0 <= k < |c.bags| ==> c.bags[k].stop == stop && c.bags[k].weight <= MAX_WEIGHT
  }

  lemma AddKeepsProper(c: Container, b: Bag)
    requires Proper(c, b.stop) && b.weight <= MAX_WEIGHT && HasRoom(c, b)
    ensures Add(c, b).Added? && Proper(Add(c, b).container, b.stop)
    ensures Add(c, b).container.bags == c.bags + [b]
  {
    assert (c.bags + [b])[..|c.bags|] == c.bags;
  }

  function AllBags(cs: seq<Container>): multiset<Bag> {
    if cs == [] then multiset{} else AllBags(cs[..|cs| - 1]) + multiset(cs[|cs| - 1].bags)
  }

  lemma AllBagsAppend(cs: seq<Container>, c: Container)
    ensures AllBags(cs + [c]) == AllBags(cs) + multiset(c.bags)
  {
    assert (cs + [c])[..|cs|] == cs;
  }

  ghost function InOpen(open: map<string, Container>, b: Bag): nat {
    if b.stop in open then multiset(open[b.stop].bags)[b] else 0
  }

  // Every bag offered is in a closed or an open container, except that bags heavier than a
  // container are in none.
  ghost predicate Conserved(offered: multiset<Bag>, closed: seq<Container>, open: map<string, Container>) {
    forall b: Bag :: Kept(offered, closed, open, b)
  }

  ghost predicate Kept(offered: multiset<Bag>, closed: seq<Container>, open: map<string, Container>, b: Bag) {
    AllBags(closed)[b] + InOpen(open, b) == if b.weight <= MAX_WEIGHT then offered[b] else 0
  }

  // All containers are proper, each for some stop.
  ghost predicate AllProper(cs: seq<Container>) {
    forall i :: 0 <= i < |cs| ==> ForOneStop(cs[i])
  }

  ghost predicate ForOneStop(c: Container) {
    exists stop :: Proper(c, stop)
  }

  lemma CloseConserves(offered: multiset<Bag>, closed: seq<Container>, open: map<string, Container>, stop: string)
    requires Conserved(offered, closed, open) && stop in open && Proper(open[stop], stop)
    ensures Conserved(offered, closed + [open[stop]], open - {stop})
  {
    AllBagsAppend(closed, open[stop]);
    forall b: Bag
      ensures Kept(offered, closed + [open[stop]], open - {stop}, b) {
      assert Kept(offered, closed, open, b);
      if b.stop != stop {
        NotAmong(open[stop], stop, b);
        assert InOpen(open - {stop}, b) == InOpen(open, b);
      }
    }
  }

  lemma DropConserves(offered: multiset<Bag>, closed: seq<Container>, open: map<string, Container>, b: Bag)
    requires Conserved(offered, closed, open) && b.weight > MAX_WEIGHT
    ensures Conserved(offered + multiset{b}, closed, open)
  {
    forall x: Bag ensures Kept(offered + multiset{b}, closed, open, x) {
      assert Kept(offered, closed, open, x);
    }
  }

  // ---------------------------------------------------------------- when a container is closed

  // What a container may hold besides `bags`, by the two limits alone.
  ghost predicate Fits(bags: seq<Bag>, b: Bag) {
    |bags + [b]| <= MAX_BAGS && Weight(bags + [b]) <= MAX_WEIGHT
  }

  /** There is room for a bag exactly if both limits hold with it. */
  lemma RoomIsWithinLimits(c: Container, b: Bag)
    requires Proper(c, b.stop)
    ensures HasRoom(c, b) <==> Fits(c.bags, b)
  {
    assert (c.bags + [b])[..|c.bags|] == c.bags;
  }

  ghost predicate ForStop(c: Container, stop: string) {
    c.bags != [] && c.bags[0].stop == stop
  }

  // The last container for a stop.
  ghost predicate LastOf(cs: seq<Container>, i: nat, stop: string) {
    i < |cs| && ForStop(cs[i], stop) && forall k :: i < k < |cs| ==> !ForStop(cs[k], stop)
  }

  // One container and the next for the same stop.
  ghost predicate Consecutive(cs: seq<Container>, i: nat, j: nat) {
    i < j < |cs| && cs[j].bags != [] && LastOf(cs[..j], i, cs[j].bags[0].stop)
  }

  // No container is empty, and the first bag of each did not fit into the one before it.
  ghost predicate NoneTooEarly(cs: seq<Container>) {
    && (forall i :: 0 <= i < |cs| ==> cs[i].bags != [])
    && (forall i: nat, j: nat :: Consecutive(cs, i, j) ==> !Fits(cs[i].bags, cs[j].bags[0]))
  }

  // The same of an open container and those closed.
  ghost predicate NotBefore(closed: seq<Container>, c: Container) {
    && c.bags != []
    && forall i: nat :: LastOf(closed, i, c.bags[0].stop) ==> !Fits(closed[i].bags, c.bags[0])
  }

  lemma CloseInTime(closed: seq<Container>, c: Container)
    requires NoneTooEarly(closed) && NotBefore(closed, c)
    ensures NoneTooEarly(closed + [c])
  {
    var now := closed + [c];
    forall i: nat, j: nat | Consecutive(now, i, j) ensures !Fits(now[i].bags, now[j].bags[0]) {
      if j < |closed| {
        assert now[..j] == closed[..j];
        assert Consecutive(closed, i, j);
      } else {
        assert now[..j] == closed;
      }
    }
  }

  // Closing the container of one stop leaves those of the others as they were.
  lemma OthersStay(closed: seq<Container>, c: Container, d: Container)
    requires NotBefore(closed, d) && c.bags != [] && d.bags[0].stop != c.bags[0].stop
    ensures NotBefore(closed + [c], d)
  {
    var now := closed + [c];
    forall i: nat | LastOf(now, i, d.bags[0].stop) ensures !Fits(now[i].bags, d.bags[0]) {
      assert !ForStop(now[|closed|], d.bags[0].stop);
      assert forall k :: 0 <= k < |closed| ==> closed[k] == now[k];
      assert LastOf(closed, i, d.bags[0].stop);
    }
  }

  // After a container has been closed the next for its stop starts with the bag that did not fit.
  lemma NextStarts(closed: seq<Container>, c: Container, d: Container)
    requires c.bags != [] && d.bags != [] && d.bags[0].stop == c.bags[0].stop && !Fits(c.bags, d.bags[0])
    ensures NotBefore(closed + [c], d)
  {
    var now := closed + [c];
    forall i: nat | LastOf(now, i, d.bags[0].stop) ensures !Fits(now[i].bags, d.bags[0]) {
      assert ForStop(now[|closed|], d.bags[0].stop);
    }
  }

  // Every stop with a closed container has an open one.
  ghost predicate AllInTime(closed: seq<Container>, open: map<string, Container>) {
    && NoneTooEarly(closed)
    && (forall stop :: stop in open ==> ForStop(open[stop], stop) && NotBefore(closed, open[stop]))
    && (forall i :: 0 <= i < |closed| ==> closed[i].bags[0].stop in open)
  }

  lemma OpenedInTime(closed: seq<Container>, was: map<string, Container>, open: map<string, Container>, b: Bag)
    requires AllInTime(closed, was) && b.stop !in was
    requires b.stop in open && open == was[b.stop := open[b.stop]] && open[b.stop].bags == [b]
    ensures AllInTime(closed, open)
  {
    assert forall i: nat :: !LastOf(closed, i, b.stop);
  }

  lemma FilledInTime(closed: seq<Container>, was: map<string, Container>, open: map<string, Container>, b: Bag)
    requires AllInTime(closed, was) && b.stop in was && b.stop in open
    requires open == was[b.stop := open[b.stop]] && open[b.stop].bags == was[b.stop].bags + [b]
    ensures AllInTime(closed, open)
  {
    assert open[b.stop].bags[0] == was[b.stop].bags[0];
  }

  lemma ReplacedInTime(closed: seq<Container>, was: map<string, Container>, open: map<string, Container>, b: Bag)
    requires AllInTime(closed, was) && b.stop in was && !Fits(was[b.stop].bags, b)
    requires b.stop in open && open == was[b.stop := open[b.stop]] && open[b.stop].bags == [b]
    ensures AllInTime(closed + [was[b.stop]], open)
  {
    var c := was[b.stop];
    CloseInTime(closed, c);
    NextStarts(closed, c, open[b.stop]);
    forall stop | stop in open ensures ForStop(open[stop], stop) && NotBefore(closed + [c], open[stop]) {
      if stop != b.stop {
        OthersStay(closed, c, was[stop]);
      }
    }
  }

  // What a bag does that some container can hold: it is the last of the open container for its
  // stop, behind what that container held if the bag fitted, and alone in a new one if not.
  ghost predicate Placed(before: seq<Container>, was: map<string, Container>,
                         closed: seq<Container>, open: map<string, Container>, b: Bag) {
    && b.stop in open && open == was[b.stop := open[b.stop]]
    && open[b.stop].bags == (if b.stop in was && HasRoom(was[b.stop], b) then was[b.stop].bags else []) + [b]
    && closed == before + if b.stop in was && !HasRoom(was[b.stop], b) then [was[b.stop]] else []
  }

  lemma PlacedInTime(before: seq<Container>, was: map<string, Container>,
                     closed: seq<Container>, open: map<string, Container>, b: Bag)
    requires AllInTime(before, was) && Placed(before, was, closed, open, b)
    requires b.stop in was ==> Proper(was[b.stop], b.stop)
    ensures AllInTime(closed, open)
  {
    if b.stop !in was {
      OpenedInTime(before, was, open, b);
      assert closed == before;
    } else if HasRoom(was[b.stop], b) {
      FilledInTime(before, was, open, b);
      assert closed == before;
    } else {
      RoomIsWithinLimits(was[b.stop], b);
      ReplacedInTime(before, was, open, b);
    }
  }

  class RobotCarga {
    var open: map<string, Container>
    var closed: seq<Container>
    ghost var offered: multiset<Bag>

    ghost predicate Valid()
      reads this
    {
      && AllProper(closed)
      && (forall stop :: stop in open ==> Proper(open[stop], stop))
      && Conserved(offered, closed, open)
    }

    // Containers are closed in time, not before, and one is opened at once for the bag at hand.
    ghost predicate InTime()
      reads this
    {
      AllInTime(closed, open)
    }

    constructor ()
      ensures Valid() && InTime() && open == map[] && closed == [] && offered == multiset{}
    {
      open, closed, offered := map[], [], multiset{};
    }

    method Close(stop: string)
      requires Valid() && stop in open
      modifies this`open, this`closed
      ensures Valid() && closed == old(closed) + [old(open)[stop]] && open == old(open) - {stop}
    {
      assert Proper(open[stop], stop);
      CloseConserves(offered, closed, open, stop);
      closed, open := closed + [open[stop]], open - {stop};
    }

    method Open(stop: string)
      requires Valid() && stop !in open
      modifies this`open
      ensures Valid() && open == old(open)[stop := EMPTY]
    {
      ghost var was := open;
      open := open[stop := EMPTY];
      forall b: Bag ensures Kept(offered, closed, open, b) {
        assert Kept(offered, closed, was, b);
      }
    }

    // Puts a bag that fits into the open container of its stop: neither error is possible.
    method PutInto(b: Bag)
      requires Valid() && b.stop in open && b.weight <= MAX_WEIGHT && HasRoom(open[b.stop], b)
      modifies this`open, this`offered
      ensures Valid() && offered == old(offered) + multiset{b}
      ensures Add(old(open)[b.stop], b).Added? && open == old(open)[b.stop := Add(old(open)[b.stop], b).container]
    {
      var c := open[b.stop];
      AddKeepsProper(c, b);
      ghost var was := open;
      var added := Add(c, b);
      open, offered := open[b.stop := added.container], offered + multiset{b};
      forall x: Bag ensures Kept(offered, closed, open, x) {
        assert Kept(old(offered), closed, was, x);
        if x.stop != b.stop {
          assert InOpen(open, x) == InOpen(was, x);
        } else {
          assert multiset(c.bags + [b])[x] == multiset(c.bags)[x] + multiset{b}[x];
        }
      }
    }

    // An open container for the stop of the bag, with room for it.
    method MakeRoom(b: Bag)
      requires Valid() && b.weight <= MAX_WEIGHT
      modifies this`open, this`closed
      ensures Valid() && b.stop in open && HasRoom(open[b.stop], b)
      ensures open == old(open)[b.stop := open[b.stop]]
      ensures if b.stop in old(open) && HasRoom(old(open)[b.stop], b) then open == old(open) else open[b.stop] == EMPTY
      ensures closed == old(closed) + if b.stop in old(open) && !HasRoom(old(open)[b.stop], b)
                                      then [old(open)[b.stop]] else []
    {
      if b.stop !in open {
        Open(b.stop);
      }
      if !HasRoom(open[b.stop], b) {
        Close(b.stop);
        Open(b.stop);
      }
    }

    // Takes a bag that some container can hold.
    method PlaceBag(b: Bag)
      requires Valid() && b.weight <= MAX_WEIGHT
      modifies this
      ensures Valid() && offered == old(offered) + multiset{b}
      ensures Placed(old(closed), old(open), closed, open, b)
    {
      MakeRoom(b);
      ghost var room := open;
      PutInto(b);
      assert open == room[b.stop := open[b.stop]];
    }

    /** Takes a bag: into the open container of its stop, which is closed first when the bag does
        not fit, and opened when there is none; a bag heavier than a container is dropped. */
    method AddBag(b: Bag)
      requires Valid() && InTime()
      modifies this
      ensures Valid() && InTime() && offered == old(offered) + multiset{b}
      ensures b.weight > MAX_WEIGHT ==> closed == old(closed) && open == old(open)
      ensures b.weight <= MAX_WEIGHT ==> Placed(old(closed), old(open), closed, open, b)
    {
      if b.weight <= MAX_WEIGHT {
        PlaceBag(b);
        PlacedInTime(old(closed), old(open), closed, open, b);
      } else {
        DropConserves(offered, closed, open, b);
        offered := offered + multiset{b};
      }
    }

    // The rest of the containers, once the belt is empty.
    method CloseAll()
      requires Valid() && InTime()
      modifies this`open, this`closed
      ensures NoneTooEarly(closed)
      ensures Valid() && open == map[] && |closed| == |old(closed)| + |old(open)|
      ensures offered == old(offered)
    {
      while open != map[]
        invariant Valid() && |closed| + |open| == |old(closed)| + |old(open)|
        invariant NoneTooEarly(closed) && forall stop :: stop in open ==> NotBefore(closed, open[stop])
        decreases |open|
      {
        var stop :| stop in open;
        assert open.Keys == (open - {stop}).Keys + {stop};
        ghost var before, was := closed, open;
        Close(stop);
        CloseInTime(before, was[stop]);
        forall other | other in open ensures NotBefore(closed, open[other]) {
          assert Proper(was[other], other) && Proper(was[stop], stop);
          OthersStay(before, was[stop], was[other]);
        }
      }
    }
  }

  lemma NotAmong(c: Container, stop: string, b: Bag)
    requires Proper(c, stop) && b.stop != stop
    ensures multiset(c.bags)[b] == 0
  {
    assert b !in c.bags;
  }

  lemma RealStep(bags: seq<Bag>, i: nat)
    requires i < |bags|
    ensures multiset(Real(bags[..i + 1]))
      == multiset(Real(bags[..i])) + if bags[i].rfid != 0 then multiset{bags[i]} else multiset{}
  {
    assert bags[..i + 1][..i] == bags[..i];
  }

  // Bags that some container can hold.
  function Loadable(bags: seq<Bag>): multiset<Bag> {
    if bags == [] then multiset{}
    else
      var b := bags[|bags| - 1];
      Loadable(bags[..|bags| - 1]) + if b.weight <= MAX_WEIGHT then multiset{b} else multiset{}
  }

  lemma {:induction false} LoadableIs(bags: seq<Bag>, b: Bag)
    ensures Loadable(bags)[b] == if b.weight <= MAX_WEIGHT then multiset(bags)[b] else 0
  {
    if bags != [] {
      var n := |bags| - 1;
      LoadableIs(bags[..n], b);
      assert bags == bags[..n] + [bags[n]];
    }
  }

  /** The bags of one flight: dummies are skipped, everything else is packed, and the containers
      are what the tractors get. No container is empty, and one was closed only for a bag to its
      stop that it could not hold, which is the first of the next container for that stop. */
  method LoadFlight(bags: seq<Bag>) returns (sent: seq<Container>)
    ensures AllProper(sent) && AllBags(sent) == Loadable(Real(bags))
    ensures NoneTooEarly(sent)
  {
    var robot := new RobotCarga();
    for i := 0 to |bags|
      invariant robot.Valid() && robot.InTime() && robot.offered == multiset(Real(bags[..i]))
    {
      RealStep(bags, i);
      if bags[i].rfid != 0 {
        robot.AddBag(bags[i]);
      }
    }
    assert bags[..|bags|] == bags;
    robot.CloseAll();
    sent := robot.closed;
    AllLoaded(Real(bags), sent);
  }

  lemma AllLoaded(bags: seq<Bag>, sent: seq<Container>)
    requires Conserved(multiset(bags), sent, map[])
    ensures AllBags(sent) == Loadable(bags)
  {
    forall b: Bag ensures AllBags(sent)[b] == Loadable(bags)[b] {
      LoadableIs(bags, b);
      assert Kept(multiset(bags), sent, map[], b);
    }
  }

  /** Nothing is lost exactly when no bag is heavier than a container. */
  lemma NothingLostExactlyWhenAllFit(bags: seq<Bag>)
    ensures Loadable(bags) == multiset(bags) <==> forall k :: 0 <= k < |bags| ==> bags[k].weight <= MAX_WEIGHT
  {
    forall b: Bag ensures Loadable(bags)[b] == if b.weight <= MAX_WEIGHT then multiset(bags)[b] else 0 {
      LoadableIs(bags, b);
    }
    if forall k :: 0 <= k < |bags| ==> bags[k].weight <= MAX_WEIGHT {
      forall b: Bag ensures Loadable(bags)[b] == multiset(bags)[b] {
        if b in multiset(bags) {
          assert b in bags;
        }
      }
    } else {
      var k :| 0 <= k < |bags| && bags[k].weight > MAX_WEIGHT;
      assert bags[k] in multiset(bags);
    }
  }
}
