/**
 The token of a memory group on its way round the joined clients, over every interleaving of
 joining, leaving, passing, pulling and releasing.
 */
module GroupTokens {
  import opened ClientTables
  import opened Sums

  // Where the one token is: an auxiliary variable that the steps never read.
  datatype Place = Manager | Queue(slot: nat) | Holder(slot: nat) | Departing

  datatype State = State(
    table: Table,
    releases: nat,           // tokens in the queue of the token manager
    queues: seq<nat>,        // tokens in the queue of each slot
    holders: seq<bool>,      // the handler of the slot holds the token
    departing: nat,          // handlers that have left the table and have yet to release
    place: Place)

  datatype Label =
    | Join(name: string)
    | Pass(next: nat)
    | Pull(slot: nat)
    | Release(slot: nat)
    | Leave(slot: nat)       // the handler that holds the token takes its client off the table
    | LastRelease            // and releases the token

  ghost predicate WellFormed(s: State) {
    Valid(s.table) && |s.queues| == |s.holders| == |s.table.names|
  }

  ghost predicate IsJoined(s: State, slot: nat) {
    slot < |s.table.names| && s.table.names[slot] != ""
  }

  ghost predicate Enabled(s: State, l: Label)
    requires WellFormed(s)
  {
    match l
    case Join(name) => true
    case Pass(next) =>
      s.releases > 0 && if s.table.count == 0 then next == 0 else IsNext(s.table.names, s.table.current, next)
    case Pull(i) => IsJoined(s, i) && !s.holders[i] && s.queues[i] > 0
    case Release(i) => IsJoined(s, i) && s.holders[i]
    case Leave(i) => IsJoined(s, i) && s.holders[i]
    case LastRelease => s.departing > 0
  }

  ghost function Apply(s: State, l: Label): State
    requires WellFormed(s) && Enabled(s, l)
  {
    match l
    case Join(name) => s.(table := AfterJoin(s.table, name))
    case Pass(next) =>
      s.(table := s.table.(current := next), releases := s.releases - 1,
         queues := s.queues[next := s.queues[next] + 1], place := Queue(next))
    case Pull(i) =>
      s.(queues := s.queues[i := s.queues[i] - 1], holders := s.holders[i := true], place := Holder(i))
    case Release(i) =>
      s.(holders := s.holders[i := false], releases := s.releases + 1, place := Manager)
    case Leave(i) =>
      s.(table := AfterLeave(s.table, s.table.names[i]), holders := s.holders[i := false],
         departing := s.departing + 1, place := Departing)
    case LastRelease => s.(departing := s.departing - 1, releases := s.releases + 1, place := Manager)
  }

  ghost predicate Runs(s: State, run: seq<Label>)
    decreases |run|
  {
    run == [] || (WellFormed(s) && Enabled(s, run[0]) && Runs(Apply(s, run[0]), run[1..]))
  }

  ghost function After(s: State, run: seq<Label>): State
    requires Runs(s, run)
    decreases |run|
  {
    if run == [] then s else After(Apply(s, run[0]), run[1..])
  }

  // A group whose list entry gives it a token starts with it in the manager's queue.
  ghost predicate Init(s: State) {
    && WellFormed(s)
    && s.releases == 1 && s.departing == 0 && s.place == Manager
    && (forall i :: 0 <= i < |s.queues| ==> s.queues[i] == 0 && !s.holders[i])
    && s.table.count == 0
  }

  // ---------------------------------------------------------------- conservation

  ghost predicate DistinctNames(names: seq<string>) {
    forall i, j :: 0 <= i < j < |names| && names[i] != "" ==> names[i] != names[j]
  }

  ghost predicate OneToken(s: State)
    requires WellFormed(s)
  {
    && s.releases == (if s.place.Manager? then 1 else 0)
    && s.departing == (if s.place.Departing? then 1 else 0)
    && (forall i :: 0 <= i < |s.queues| ==>
          && s.queues[i] == (if s.place == Queue(i) then 1 else 0)
          && (s.holders[i] <==> s.place == Holder(i)))
    && (s.place.Queue? || s.place.Holder? ==> s.place.slot < |s.queues|)
  }

  // A queued token waits for a joined client, or in slot 0 of an empty table.
  ghost predicate NotStranded(s: State)
    requires WellFormed(s)
  {
    && (s.place.Queue? ==> IsJoined(s, s.place.slot) || (s.place.slot == 0 && s.table.count == 0))
    && (s.place.Holder? ==> IsJoined(s, s.place.slot))
  }

  ghost predicate Inv(s: State) {
    WellFormed(s) && DistinctNames(s.table.names) && OneToken(s) && NotStranded(s)
  }

  lemma NobodyJoined(s: State)
    requires WellFormed(s)
    ensures s.table.count == 0 <==> forall i :: 0 <= i < |s.table.names| ==> s.table.names[i] == ""
  {
    OccupiedRange(s.table.names);
  }

  lemma FirstToJoin(s: State, name: string)
    requires WellFormed(s) && s.table.count == 0 && name != ""
    ensures JoinOutcome(s.table, name) == Joined(0)
  {
    NobodyJoined(s);
    assert s.table.names[0] == "" && FirstOf(s.table.names, "") == 0;
    assert name !in s.table.names;
  }

  lemma JoinKeeps(s: State, name: string)
    requires Inv(s)
    ensures Inv(Apply(s, Join(name)))
  {
    JoinKeepsValid(s.table, name);
    NobodyJoined(s);
  }

  lemma LeaveKeeps(s: State, i: nat)
    requires Inv(s) && Enabled(s, Leave(i))
    ensures Inv(Apply(s, Leave(i)))
  {
    LeaveKeepsValid(s.table, s.table.names[i]);
    assert FirstOf(s.table.names, s.table.names[i]) == i;
  }

  lemma StepKeeps(s: State, l: Label)
    requires Inv(s) && Enabled(s, l)
    ensures Inv(Apply(s, l)) && |Apply(s, l).queues| == |s.queues|
  {
    match l
    case Join(name) => JoinKeeps(s, name);
    case Leave(i) => LeaveKeeps(s, i);
    case _ =>
  }

  lemma InitInv(s: State)
    requires Init(s)
    ensures Inv(s)
  {
    NobodyJoined(s);
  }

  lemma {:induction false} RunKeeps(s: State, run: seq<Label>)
    requires Inv(s) && Runs(s, run)
    ensures Inv(After(s, run)) && |After(s, run).queues| == |s.queues|
    decreases |run|
  {
    if run != [] {
      StepKeeps(s, run[0]);
      RunKeeps(Apply(s, run[0]), run[1..]);
    }
  }

  function Ones(flags: seq<bool>): seq<nat> {
    seq(|flags|, i requires 0 <= i < |flags| => if flags[i] then 1 else 0)
  }

  lemma CountsOfOneToken(s: State)
    requires WellFormed(s) && OneToken(s)
    ensures s.releases + Sum(s.queues) + Sum(Ones(s.holders)) + s.departing == 1
  {
    var none := |s.queues|;
    SumOfOne(s.queues, if s.place.Queue? then s.place.slot else none);
    SumOfOne(Ones(s.holders), if s.place.Holder? then s.place.slot else none);
  }

  /** After any run exactly one token exists, at most one client holds it, and if it is queued
      it is for a joined client, or for slot 0 of an empty table, which the next to join takes. */
  lemma ExactlyOneToken(s: State, run: seq<Label>)
    requires Init(s) && Runs(s, run)
    ensures var t := After(s, run);
      && WellFormed(t)
      && t.releases + Sum(t.queues) + Sum(Ones(t.holders)) + t.departing == 1
      && (forall i, j :: 0 <= i < |t.holders| && 0 <= j < |t.holders| && t.holders[i] && t.holders[j] ==> i == j)
      && (forall i :: 0 <= i < |t.queues| && t.queues[i] > 0 && !IsJoined(t, i) ==>
            i == 0 && forall name :: name != "" ==> JoinOutcome(t.table, name) == Joined(0))
  {
    InitInv(s);
    RunKeeps(s, run);
    var t := After(s, run);
    CountsOfOneToken(t);
    forall i | 0 <= i < |t.queues| && t.queues[i] > 0 && !IsJoined(t, i)
      ensures i == 0 && forall name :: name != "" ==> JoinOutcome(t.table, name) == Joined(0) {
      forall name: string | name != "" ensures JoinOutcome(t.table, name) == Joined(0) {
        FirstToJoin(t, name);
      }
    }
  }

  // The token can always be moved: only a table without clients leaves it waiting.
  lemma StuckOnlyWithoutClients(s: State)
    requires Inv(s)
    ensures (forall l :: Enabled(s, l) ==> l.Join?) <==> s.table.count == 0 && s.place == Queue(0)
  {
    NobodyJoined(s);
    var n := |s.queues|;
    if forall l :: Enabled(s, l) ==> l.Join? {
      assert !Enabled(s, LastRelease);
      assert s.place.Queue? ==> !Enabled(s, Pull(s.place.slot));
      assert s.place.Holder? ==> !Enabled(s, Release(s.place.slot));
      if s.table.count == 0 {
        assert !Enabled(s, Pass(0));
      } else {
        NextExists(s.table.names, s.table.current);
        assert forall c: nat | IsNext(s.table.names, s.table.current, c) :: !Enabled(s, Pass(c));
      }
    }
  }

  lemma {:induction false} NextExistsFrom(names: seq<string>, current: nat, d: nat)
    requires current < |names| && 1 <= d <= |names| && exists k :: 0 <= k < |names| && names[k] != ""
    requires forall k :: 0 <= k < |names| && names[k] != "" ==> Turn(current, k, |names|) >= d
    ensures exists c :: IsNext(names, current, c)
    decreases |names| - d
  {
    var c := if current + d < |names| then current + d else current + d - |names|;
    assert Turn(current, c, |names|) == d;
    if names[c] != "" {
      assert IsNext(names, current, c);
    } else {
      var k :| 0 <= k < |names| && names[k] != "";
      assert Turn(current, k, |names|) > d;
      NextExistsFrom(names, current, d + 1);
    }
  }

  lemma NextExists(names: seq<string>, current: nat)
    requires current < |names| && Occupied(names) > 0
    ensures exists c :: IsNext(names, current, c)
  {
    OccupiedRange(names);
    NextExistsFrom(names, current, 1);
  }
}
