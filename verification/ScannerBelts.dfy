/**
 The scanner belts: one producer spreads bags over several belts, each emptied by its own
 scanner. A table under a lock of its own says which belts are in use and which are full.

 `Memory` is the value of the shared memories and of the producer's next belt; the
 functions say what each locked section does, and `CintaScanner` carries its code.
 */
module ScannerBelts {
  import opened Bags
  import opened RingBuffers

  // The entries -1, 0 and 1 of `control_cinta_llena`.
  datatype Mark = Unused | HasSpace | Full

  datatype Memory = Memory(
    belts: seq<Ring>, napping: seq<bool>,        // under the lock of each belt
    marks: seq<Mark>, producerNapping: bool,     // under the control lock
    next: nat)                                   // the producer's own

  ghost predicate Valid(m: Memory) {
    && |m.belts| == |m.napping| == |m.marks|
    && m.next < |m.belts|
    && (forall c :: 0 <= c < |m.belts| ==> m.belts[c].Valid())
  }

  datatype Search = Search(found: bool, at: nat)

  // Looks at `steps` belts in turn, starting at `from`, for one with space.
  function FirstOpen(marks: seq<Mark>, from: nat, steps: nat): (r: Search)
    requires from < |marks|
    ensures r.at < |marks| && (r.found ==> marks[r.at] == HasSpace)
    decreases steps
  {
    if steps == 0 then Search(false, from)
    else if marks[from] == HasSpace then Search(true, from)
    else FirstOpen(marks, Around(from + 1, |marks|), steps - 1)
  }

  // A search that fails has seen every one of its belts.
  lemma {:induction false} FailedSearch(marks: seq<Mark>, from: nat, steps: nat, j: nat)
    requires from < |marks| && steps <= |marks| && j < steps
    requires !FirstOpen(marks, from, steps).found
    ensures marks[Around(from + j, |marks|)] != HasSpace
    decreases steps
  {
    if j > 0 {
      FailedSearch(marks, Around(from + 1, |marks|), steps - 1, j - 1);
    }
  }

  /** A full turn finds a belt with space exactly when there is one. */
  lemma FullTurn(marks: seq<Mark>, from: nat)
    requires from < |marks|
    ensures FirstOpen(marks, from, |marks|).found <==> exists c :: 0 <= c < |marks| && marks[c] == HasSpace
  {
    if !FirstOpen(marks, from, |marks|).found {
      forall c | 0 <= c < |marks| ensures marks[c] != HasSpace {
        FailedSearch(marks, from, |marks|, if c >= from then c - from else c + |marks| - from);
      }
    }
  }

  // Belts to go from one to another, going round.
  function Steps(from: nat, to: nat, n: nat): nat
    requires from < n && to < n
  {
    if to >= from then to - from else to + n - from
  }

  // No belt that is met before `to`, going round from `from`, has space.
  ghost predicate NoneBefore(marks: seq<Mark>, from: nat, to: nat)
    requires from < |marks| && to < |marks|
  {
    forall c :: 0 <= c < |marks| && Steps(from, c, |marks|) < Steps(from, to, |marks|) ==> marks[c] != HasSpace
  }

  // A search stops at the first belt with space.
  lemma {:induction false} StopsAtFirst(marks: seq<Mark>, from: nat, steps: nat, c: nat)
    requires from < |marks| && steps <= |marks| && c < |marks| && FirstOpen(marks, from, steps).found
    requires Steps(from, c, |marks|) < Steps(from, FirstOpen(marks, from, steps).at, |marks|)
    ensures marks[c] != HasSpace
    decreases steps
  {
    var n, next := |marks|, Around(from + 1, |marks|);
    if c != from && marks[from] != HasSpace {
      var at := FirstOpen(marks, next, steps - 1).at;
      assert Steps(next, c, n) == Steps(from, c, n) - 1;
      assert at == from || Steps(next, at, n) == Steps(from, at, n) - 1;
      StopsAtFirst(marks, next, steps - 1, c);
    }
  }

  // The producer under the control lock: choose a belt, or go to sleep if none has space.
  function ChooseLocked(m: Memory): Memory
    requires m.next < |m.marks|
  {
    var r := FirstOpen(m.marks, m.next, |m.marks|);
    m.(next := r.at, producerNapping := m.producerNapping || !r.found)
  }

  predicate Chose(m: Memory)
    requires m.next < |m.marks|
  {
    FirstOpen(m.marks, m.next, |m.marks|).found
  }

  // The producer under the lock of the chosen belt. It does not look whether there is room.
  function PlaceLocked(m: Memory, e: Bag): Memory
    requires m.next < |m.belts| == |m.napping| && m.belts[m.next].free < |m.belts[m.next].slots|
  {
    var b := m.belts[m.next].Push(e);
    m.(belts := m.belts[m.next := b],
       napping := if b.count == 1 && m.napping[m.next] then m.napping[m.next := false] else m.napping)
  }

  // Whether placing a bag has to wake the belt's scanner.
  predicate MustWake(m: Memory)
    requires m.next < |m.belts| == |m.napping|
  {
    m.belts[m.next].count == 0 && m.napping[m.next]
  }

  predicate IsFull(r: Ring) { r.count == r.Capacity() }

  function MarkFullLocked(m: Memory): Memory
    requires m.next < |m.marks|
  {
    m.(marks := m.marks[m.next := Full])
  }

  // Scanner c under the lock of its belt.
  function TakeLocked(m: Memory, c: nat): Memory
    requires c < |m.belts| && m.belts[c].busy < |m.belts[c].slots|
  {
    if m.belts[c].count == 0 then m else m.(belts := m.belts[c := m.belts[c].Pop()])
  }

  // Scanner c, still inside, under the control lock: its belt is no longer full.
  function MarkOpenLocked(m: Memory, c: nat): Memory
    requires c < |m.marks|
  {
    if m.marks[c] == Full then m.(marks := m.marks[c := HasSpace], producerNapping := false) else m
  }

  // Scanner c before it leaves its belt: it sleeps if nothing is left.
  function SettleLocked(m: Memory, c: nat): Memory
    requires c < |m.belts| == |m.napping|
  {
    if m.belts[c].count == 0 then m.(napping := m.napping[c := true]) else m
  }

  // A scanner is switched on, under the control lock.
  function ActivateLocked(m: Memory, c: nat): Memory
    requires c < |m.marks|
  {
    m.(marks := if m.marks[c] == Unused then m.marks[c := HasSpace] else m.marks, producerNapping := false)
  }

  class CintaScanner {
    const belts: seq<RingMemory>
    const napping: array<bool>
    const marks: array<Mark>
    const activeIds: array<nat>
    var activeCount: nat
    var producerNapping: bool
    var next: nat

    ghost predicate Separate()
      reads this
    {
      && |belts| == napping.Length == marks.Length == activeIds.Length
      && next < |belts|
      && (forall i, j :: 0 <= i < j < |belts| ==> belts[i] != belts[j] && belts[i].slots != belts[j].slots)
      && (forall i :: 0 <= i < |belts| ==> belts[i].slots as object != marks && belts[i].slots as object != napping)
      && marks as object != napping && activeIds as object != marks && activeIds as object != napping
      && (forall i :: 0 <= i < |belts| ==> belts[i].slots as object != activeIds)
    }

    ghost function View(): (m: Memory)
      reads this, belts, set i | 0 <= i < |belts| :: belts[i].slots, napping, marks
    {
      Memory(seq(|belts|, i requires 0 <= i < |belts| reads belts, set j | 0 <= j < |belts| :: belts[j].slots =>
                 belts[i].View()),
             napping[..], marks[..], producerNapping, next)
    }

    // All belts empty and none in use.
    constructor (count: nat, capacity: nat)
      requires count >= 1 && capacity >= 1
      ensures Separate() && Valid(View()) && |belts| == count && activeCount == 0
      ensures forall c :: 0 <= c < count ==>
        View().belts[c].count == 0 && View().belts[c].Capacity() == capacity && !napping[c] && marks[c] == Unused
      ensures next == 0 && !producerNapping
    {
      var bs: seq<RingMemory> := [];
      for i := 0 to count
        invariant |bs| == i
        invariant forall j :: 0 <= j < i ==> fresh(bs[j]) && fresh(bs[j].slots)
        invariant forall j :: 0 <= j < i ==>
          bs[j].View().Valid() && bs[j].View().Capacity() == capacity && bs[j].View().count == 0
        invariant forall j, k :: 0 <= j < k < i ==> bs[j] != bs[k] && bs[j].slots != bs[k].slots
      {
        var b := new RingMemory(capacity);
        bs := bs + [b];
      }
      belts := bs;
      napping := new bool[count](_ => false);
      marks := new Mark[count](_ => Unused);
      activeIds := new nat[count](_ => 0);
      activeCount, producerNapping, next := 0, false, 0;
    }

    method Choose() returns (found: bool)
      requires Separate()
      modifies this`next, this`producerNapping
      ensures Separate() && View() == ChooseLocked(old(View()))
      ensures found == Chose(old(View()))
      ensures found ==> marks[next] == HasSpace && NoneBefore(marks[..], old(next), next)
      ensures !found ==> producerNapping && next == old(next) && forall c :: 0 <= c < marks.Length ==> marks[c] != HasSpace
    {
      var seen := 0;
      while seen < marks.Length && marks[next] != HasSpace
        invariant Separate() && 0 <= seen <= marks.Length && producerNapping == old(producerNapping)
        invariant next == Around(old(next) + seen, marks.Length)
        invariant forall c :: 0 <= c < marks.Length && Steps(old(next), c, marks.Length) < seen ==> marks[c] != HasSpace
        invariant FirstOpen(marks[..], next, |marks[..]| - seen) == FirstOpen(old(marks[..]), old(next), |marks[..]|)
      {
        AroundIsModulo(next + 1, marks.Length);
        next := (next + 1) % marks.Length;
        seen := seen + 1;
      }
      found := seen < marks.Length;
      if seen == marks.Length {
        producerNapping := true;
      }
    }

    method Place(e: Bag) returns (wake: bool, full: bool)
      requires Separate() && Valid(View()) && !IsFull(View().belts[next])
      modifies belts, set i | 0 <= i < |belts| :: belts[i].slots, napping
      ensures Separate() && View() == PlaceLocked(old(View()), e)
      ensures wake == MustWake(old(View())) && full == IsFull(View().belts[next])
    {
      assert View().belts[next] == belts[next].View();
      belts[next].Store(e);
      wake := false;
      if belts[next].count == 1 {
        if napping[next] {
          wake := true;
          napping[next] := false;
        }
      }
      full := belts[next].count == belts[next].slots.Length;
    }

    method MarkFull()
      requires Separate()
      modifies marks
      ensures Separate() && View() == MarkFullLocked(old(View()))
    {
      marks[next] := Full;
    }

    // `e` is meaningful when `taken` holds; `wasFull` asks for a visit to the control table.
    method Take(c: nat) returns (taken: bool, e: Bag, wasFull: bool)
      requires Separate() && Valid(View()) && c < |belts|
      modifies belts
      ensures Separate() && View() == TakeLocked(old(View()), c)
      ensures taken <==> old(View()).belts[c].count > 0
      ensures taken ==> e == old(View()).belts[c].slots[old(View()).belts[c].busy]
      ensures wasFull <==> taken && IsFull(old(View()).belts[c])
    {
      assert View().belts[c] == belts[c].View();
      taken, e, wasFull := false, NO_BAG, false;
      if belts[c].count > 0 {
        PopRemovesHead(belts[c].View());
        taken := true;
        e := belts[c].Head();
        belts[c].Drop();
        wasFull := belts[c].count == belts[c].slots.Length - 1;
      }
    }

    method MarkOpen(c: nat) returns (wake: bool)
      requires Separate() && c < |belts|
      modifies marks, this`producerNapping
      ensures Separate() && View() == MarkOpenLocked(old(View()), c)
      ensures wake == (old(marks[c]) == Full && old(producerNapping))
    {
      wake := false;
      if marks[c] == Full {
        marks[c] := HasSpace;
        if producerNapping {
          producerNapping := false;
          wake := true;
        }
      }
    }

    method Settle(c: nat) returns (keepsPermission: bool)
      requires Separate() && c < |belts|
      modifies napping
      ensures Separate() && View() == SettleLocked(old(View()), c)
      ensures keepsPermission == (View().belts[c].count > 0)
    {
      assert View().belts[c] == belts[c].View();
      keepsPermission := belts[c].count > 0;
      if belts[c].count == 0 {
        napping[c] := true;
      }
    }

    method Activate(c: nat) returns (wake: bool)
      requires Separate() && c < |belts|
      modifies marks, activeIds, this`activeCount, this`producerNapping
      ensures Separate() && View() == ActivateLocked(old(View()), c)
      ensures wake == old(producerNapping)
      ensures activeIds[c] == c + 1 && activeCount == old(activeCount) + 1
      ensures forall d :: 0 <= d < activeIds.Length && d != c ==> activeIds[d] == old(activeIds[d])
    {
      activeIds[c] := c + 1;
      activeCount := activeCount + 1;
      if marks[c] == Unused {
        marks[c] := HasSpace;
      }
      wake := producerNapping;
      if producerNapping {
        producerNapping := false;
      }
    }
  }
}
