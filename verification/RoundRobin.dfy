/** How long a client waits for the token while the manager passes it on. */
module RoundRobin {
  import opened ClientTables
  import opened GroupTokens

  function Passes(run: seq<Label>): nat {
    if run == [] then 0 else (if run[0].Pass? then 1 else 0) + Passes(run[1..])
  }

  ghost predicate StaysJoined(s: State, run: seq<Label>, c: nat)
    requires Runs(s, run)
    decreases |run|
  {
    IsJoined(s, c) && (run == [] || StaysJoined(Apply(s, run[0]), run[1..], c))
  }

  ghost predicate NeverChosen(run: seq<Label>, c: nat) {
    forall k :: 0 <= k < |run| ==> run[k] != Pass(c)
  }

  // The choice of any other slot brings the turn of c strictly nearer.
  lemma ChoiceComesNearer(names: seq<string>, current: nat, d: nat, c: nat)
    requires current < |names| && c < |names| && names[c] != "" && d != c && IsNext(names, current, d)
    ensures Turn(current, c, |names|) == Turn(current, d, |names|) + Turn(d, c, |names|)
  {
    assert Turn(current, d, |names|) <= Turn(current, c, |names|);
  }

  lemma StepComesNearer(s: State, l: Label, c: nat)
    requires WellFormed(s) && Enabled(s, l) && IsJoined(s, c) && l != Pass(c)
    ensures Apply(s, l).table.current < |s.table.names| == |Apply(s, l).table.names|
    ensures Turn(Apply(s, l).table.current, c, |s.table.names|) + (if l.Pass? then 1 else 0)
              <= Turn(s.table.current, c, |s.table.names|)
  {
    if l.Pass? {
      NobodyJoined(s);
      ChoiceComesNearer(s.table.names, s.table.current, l.next, c);
    }
  }

  lemma {:induction false} PassesBounded(s: State, run: seq<Label>, c: nat)
    requires Inv(s) && Runs(s, run) && StaysJoined(s, run, c) && NeverChosen(run, c)
    ensures Passes(run) < Turn(s.table.current, c, |s.table.names|)
    decreases |run|
  {
    if run != [] {
      StepKeeps(s, run[0]);
      StepComesNearer(s, run[0], c);
      PassesBounded(Apply(s, run[0]), run[1..], c);
    }
  }

  /** A client that stays joined is chosen within as many passes as there are slots, whatever
      the others do meanwhile. */
  lemma ChosenWithinSlots(s: State, run: seq<Label>, c: nat)
    requires Inv(s) && Runs(s, run) && StaysJoined(s, run, c)
    requires Passes(run) >= |s.table.names|
    ensures Pass(c) in run
  {
    if Pass(c) !in run {
      PassesBounded(s, run, c);
    }
  }

  // ---------------------------------------------------------------- fixed membership

  ghost function JoinedSlots(names: seq<string>): set<nat> {
    set k: nat | k < |names| && names[k] != ""
  }

  // The joined slots that come before c from the current one on.
  ghost function Before(names: seq<string>, current: nat, c: nat): set<nat>
    requires current < |names| && c < |names|
  {
    set k: nat | k < |names| && names[k] != "" && Turn(current, k, |names|) < Turn(current, c, |names|)
  }

  lemma ChoiceTakesOne(names: seq<string>, current: nat, d: nat, c: nat)
    requires current < |names| && c < |names| && names[c] != "" && d != c && IsNext(names, current, d)
    ensures d in Before(names, current, c) && Before(names, d, c) == Before(names, current, c) - {d}
  {
    ChoiceComesNearer(names, current, d, c);
    forall k: nat | k < |names| && names[k] != "" && k != d
      ensures Turn(current, k, |names|) == Turn(current, d, |names|) + Turn(d, k, |names|) {
      ChoiceComesNearer(names, current, d, k);
    }
  }

  // Nobody joins or leaves.
  ghost predicate SameMembers(s: State, run: seq<Label>)
    requires Runs(s, run)
    decreases |run|
  {
    run == [] || (Apply(s, run[0]).table.names == s.table.names && SameMembers(Apply(s, run[0]), run[1..]))
  }

  lemma {:induction false} PassesAreThoseBefore(s: State, run: seq<Label>, c: nat)
    requires Inv(s) && Runs(s, run) && SameMembers(s, run) && IsJoined(s, c) && NeverChosen(run, c)
    ensures Passes(run) <= |Before(s.table.names, s.table.current, c)|
    decreases |run|
  {
    if run != [] {
      StepKeeps(s, run[0]);
      if run[0].Pass? {
        NobodyJoined(s);
        ChoiceTakesOne(s.table.names, s.table.current, run[0].next, c);
      }
      PassesAreThoseBefore(Apply(s, run[0]), run[1..], c);
    }
  }

  lemma {:induction false} CountIsSize(names: seq<string>)
    ensures |JoinedSlots(names)| == Occupied(names)
  {
    if names != [] {
      var rest := JoinedSlots(names[1..]);
      CountIsSize(names[1..]);
      var shifted := set k | k in rest :: k + 1;
      ShiftedSize(rest, shifted);
      forall k: nat | 1 <= k < |names| ensures k in JoinedSlots(names) <==> k in shifted {
        assert names[k] == names[1..][k - 1];
        assert k in shifted <==> k - 1 in rest;
      }
      assert JoinedSlots(names) == shifted + if names[0] != "" then {0} else {};
    } else {
      assert JoinedSlots(names) == {};
    }
  }

  lemma {:induction false} ShiftedSize(a: set<nat>, b: set<nat>)
    requires forall m: nat :: m in b <==> m >= 1 && m - 1 in a
    ensures |a| == |b|
    decreases a
  {
    if a != {} {
      var x :| x in a;
      assert x + 1 in b;
      ShiftedSize(a - {x}, b - {x + 1});
    } else {
      assert b == {};
    }
  }

  /** With a fixed membership the client is chosen within as many passes as there are clients. */
  lemma ChosenWithinClients(s: State, run: seq<Label>, c: nat)
    requires Inv(s) && Runs(s, run) && SameMembers(s, run) && IsJoined(s, c)
    requires Passes(run) >= s.table.count
    ensures Pass(c) in run
  {
    if Pass(c) !in run {
      PassesAreThoseBefore(s, run, c);
      CountIsSize(s.table.names);
      var others := Before(s.table.names, s.table.current, c);
      SubsetSize(others, JoinedSlots(s.table.names), c);
    }
  }

  lemma {:induction false} SubsetSize(a: set<nat>, b: set<nat>, c: nat)
    requires a <= b && c in b && c !in a
    ensures |a| < |b|
    decreases a
  {
    if a != {} {
      var x :| x in a;
      SubsetSize(a - {x}, b - {x}, c);
    }
  }
}
