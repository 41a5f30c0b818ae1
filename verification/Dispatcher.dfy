/**
 How a dispatching robot uses the main belt. The belt counts on every read being followed by
 exactly one advance or one extraction; `ApiDespachante` sees to it with its flag.
 */
module Dispatcher {
  import opened Bags
  import opened Wakeups
  import opened MainBelt
  import P = MainBeltProtocol

  datatype Call = Read | Advance | Extract

  // After these calls the reader still owes an advance or an extraction.
  predicate Owes(calls: seq<Call>) { calls != [] && calls[|calls| - 1] == Read }

  /** The calls alternate: reads in even places, an advance or an extraction in odd ones. */
  predicate Alternates(calls: seq<Call>) {
    forall k :: 0 <= k < |calls| ==> (calls[k] == Read <==> k % 2 == 0)
  }

  lemma OneMoreCall(calls: seq<Call>, c: Call)
    requires Alternates(calls) && Owes(calls) == (c != Read)
    ensures Alternates(calls + [c]) && Owes(calls + [c]) == (c == Read)
  {
    if calls != [] {
      assert calls[|calls| - 1] == Read <==> (|calls| - 1) % 2 == 0;
    }
  }

  class ApiDespachante {
    const belt: CintaPrincipal
    const number: nat       // of the consumer, counted from 1
    var tookOut: bool       // nothing is owed to the belt
    var last: Bag           // the bag read last
    ghost var calls: seq<Call>

    ghost predicate Valid()
      reads this, belt, belt.ring, belt.ring.slots, belt.prodAsleep
    {
      && belt.Valid() && 1 <= number <= belt.consumers
      && Alternates(calls) && Owes(calls) == !tookOut
    }

    constructor (belt: CintaPrincipal, number: nat)
      requires belt.Valid() && 1 <= number <= belt.consumers
      ensures Valid() && this.belt == belt && this.number == number && tookOut && calls == []
    {
      this.belt, this.number := belt, number;
      tookOut, last, calls := true, NO_BAG, [];
    }

    /** Advances the belt if that is owed and looks at its head, once the caller's semaphore lets it;
        on an empty belt it is called again after the next wake-up. */
    method ReadNext() returns (read: bool, signals: seq<Signal>)
      requires Valid()
      modifies this`tookOut, this`last, this`calls, belt`consumerWaiting
      ensures Valid() && read == !tookOut
      ensures calls == old(calls) + (if old(tookOut) then [] else [Advance]) + if read then [Read] else []
      ensures signals == if old(tookOut) then [] else [ToConsumer(Successor(number - 1, belt.consumers))]
      ensures belt.View() == ReadLocked(old(belt.View()))
      ensures read <==> belt.View().ring.Contents() != []
      ensures last == if read then belt.View().ring.Contents()[0] else old(last)
    {
      signals := [];
      if !tookOut {
        tookOut := true;
        var signal := belt.Advance(number);
        signals := [signal];
        OneMoreCall(calls, Advance);
        calls := calls + [Advance];
      }
      var e;
      read, e := belt.Read();
      if read {
        OneMoreCall(calls, Read);
        calls := calls + [Read];
        last := e;
        tookOut := false;
      }
    }

    /** Returns the bag that the belt removes. The source does not look at its flag or at the belt:
        a bag must have been read, and `MainBeltProtocol.HeldBagIsHead` shows that then it is still
        at the head. */
    method ExtractBag() returns (e: Bag, signals: seq<Signal>)
      requires Valid() && !tookOut
      requires belt.View().ring.Contents() != [] && belt.View().ring.Contents()[0] == last
      modifies this`tookOut, this`calls, belt, belt.ring, belt.prodAsleep
      ensures Valid() && tookOut && calls == old(calls) + [Extract] && last == old(last)
      ensures old(belt.View().ring.Contents()) == [e] + belt.View().ring.Contents()
      ensures LineEffect(belt.View(), signals) == ExtractLocked(old(belt.View()))
    {
      ghost var bags := belt.View().ring.Contents();
      signals := belt.Extract();
      OneMoreCall(calls, Extract);
      calls := calls + [Extract];
      tookOut := true;
      e := last;
      assert bags == [bags[0]] + bags[1..];
    }

    method AdvanceBelt() returns (signals: seq<Signal>)
      requires Valid()
      modifies this`tookOut, this`calls
      ensures Valid() && tookOut && last == old(last)
      ensures calls == old(calls) + if old(tookOut) then [] else [Advance]
      ensures signals == if old(tookOut) then [] else [ToConsumer(Successor(number - 1, belt.consumers))]
    {
      signals := [];
      if !tookOut {
        var signal := belt.Advance(number);
        signals := [signal];
        OneMoreCall(calls, Advance);
        calls := calls + [Advance];
        tookOut := true;
      }
    }
  }

  // ---------------------------------------------------------------- the protocol's readers

  // The call of reader i that a step of the protocol completes.
  ghost function CallOf(s: P.State, l: P.Label, i: nat): seq<Call>
    requires P.WellFormed(s) && P.Enabled(s, l)
  {
    if l == P.ReadLeave(i) && s.readers[i].found then [Read]
    else if l == P.Advance(i) then [Advance]
    else if l == P.ExtractEnter(i) then [Extract]
    else []
  }

  // The calls made so far and then those of a run.
  ghost function CallsOf(s: P.State, run: seq<P.Label>, i: nat, calls: seq<Call>): seq<Call>
    requires P.Runs(s, run)
    decreases |run|
  {
    if run == [] then calls else CallsOf(P.Apply(s, run[0]), run[1..], i, calls + CallOf(s, run[0], i))
  }

  lemma StepAlternates(s: P.State, l: P.Label, i: nat, calls: seq<Call>)
    requires P.WellFormed(s) && P.Enabled(s, l) && i < |s.readers|
    requires Alternates(calls) && Owes(calls) == s.readers[i].Holding?
    ensures |P.Apply(s, l).readers| == |s.readers|
    ensures Alternates(calls + CallOf(s, l, i)) && Owes(calls + CallOf(s, l, i)) == P.Apply(s, l).readers[i].Holding?
  {
    var c := CallOf(s, l, i);
    ReaderMoves(s, l, i);
    if c != [] {
      OneMoreCall(calls, c[0]);
      assert c == [c[0]];
    } else {
      assert calls + c == calls;
    }
  }

  // Reader i begins to hold the right with a read and ends with an advance or an extraction.
  lemma ReaderMoves(s: P.State, l: P.Label, i: nat)
    requires P.WellFormed(s) && P.Enabled(s, l) && i < |s.readers|
    ensures |P.Apply(s, l).readers| == |s.readers|
    ensures CallOf(s, l, i) == [Read] ==> !s.readers[i].Holding?
    ensures CallOf(s, l, i) == [Advance] || CallOf(s, l, i) == [Extract] ==> s.readers[i].Holding?
    ensures P.Apply(s, l).readers[i].Holding? ==
      if CallOf(s, l, i) == [] then s.readers[i].Holding? else CallOf(s, l, i) == [Read]
  {
  }

  lemma {:induction false} RunAlternates(s: P.State, run: seq<P.Label>, i: nat, calls: seq<Call>)
    requires P.Runs(s, run) && i < |s.readers|
    requires Alternates(calls) && Owes(calls) == s.readers[i].Holding?
    ensures i < |P.After(s, run).readers|
    ensures var all := CallsOf(s, run, i, calls);
      Alternates(all) && Owes(all) == P.After(s, run).readers[i].Holding?
    decreases |run|
  {
    if run != [] {
      StepAlternates(s, run[0], i, calls);
      RunAlternates(P.Apply(s, run[0]), run[1..], i, calls + CallOf(s, run[0], i));
    }
  }

  /** What the belt's protocol takes a reader to do is what the flag of `ApiDespachante` makes a
      dispatcher do: over every run its calls alternate, and it owes one exactly while the
      protocol has it hold the right after a read. */
  lemma ProtocolAlternates(s: P.State, run: seq<P.Label>, i: nat)
    requires P.Init(s) && P.Runs(s, run) && i < |s.readers|
    ensures i < |P.After(s, run).readers|
    ensures var calls := CallsOf(s, run, i, []);
      Alternates(calls) && Owes(calls) == P.After(s, run).readers[i].Holding?
  {
    RunAlternates(s, run, i, []);
  }
}
