/**
 All distributed memories and semaphores of the sites together, with one calling process per site.
 The register of a site is shared by all of them; a call on a semaphore takes its time like a call
 on a memory.
 */
module SiteRequests {
  import opened Wakeups
  import R = SharedRegister
  import C = Coherence
  import D = DistributedSemaphore

  // What the process of a site is doing: nothing here, a call on a memory, or one on a semaphore.
  datatype Busy = Free | Calling(r: nat) | WaitingOn(i: nat) | Signalling(i: nat)

  datatype State = State(parts: seq<C.State>, sems: seq<D.State>, busy: seq<Busy>)

  datatype Label = Mem(r: nat, l: C.Label) | Sem(i: nat, d: D.Label)

  ghost predicate WellFormed(s: State) {
    && (forall r :: 0 <= r < |s.parts| ==> C.WellFormed(s.parts[r]) && |s.parts[r].clients| == |s.busy|)
    && (forall i :: 0 <= i < |s.sems| ==> s.sems[i].current < |s.sems[i].sites| == |s.busy|)
  }

  predicate SemTouches(d: D.Label) {
    d.Ask? || d.Done? || d.StartSignal?
  }

  // The site of a step, and whether it writes or clears the register.
  function Site(x: Label): nat {
    match x case Mem(_, l) => l.k case Sem(_, d) => d.k
  }

  predicate Touches(x: Label) {
    match x case Mem(_, l) => R.Touches(l) case Sem(_, d) => SemTouches(d)
  }

  predicate Writes(x: Label) {
    match x case Mem(_, l) => l.Ask? case Sem(_, d) => d.Ask?
  }

  // What the other memories of the site see of it.
  function Seen(x: Label): C.Label {
    match x
    case Mem(_, l) => R.Seen(l)
    case Sem(_, d) => C.Disturb(d.k, if d.Ask? then C.Other else C.Clear)
  }

  // The process begins a call only when it is in none.
  ghost predicate Enabled(s: State, x: Label)
    requires WellFormed(s)
  {
    match x
    case Mem(r, l) =>
      && r < |s.parts| && C.Enabled(s.parts[r], l) && !l.Disturb?
      && (l.Ask? || l.Depart? || l.Write? ==> s.busy[l.k].Free?)
    case Sem(i, d) =>
      && i < |s.sems| && D.Enabled(s.sems[i], d) && !d.Disturb?
      && (d.Ask? || d.StartSignal? ==> s.busy[d.k].Free?)
  }

  ghost function Part(s: State, x: Label, q: nat): C.State
    requires WellFormed(s) && Enabled(s, x) && q < |s.parts|
  {
    if x.Mem? && q == x.r then C.Apply(s.parts[q], x.l)
    else if Touches(x) then C.Apply(s.parts[q], Seen(x))
    else s.parts[q]
  }

  ghost function SemPart(s: State, x: Label, q: nat): D.State
    requires WellFormed(s) && Enabled(s, x) && q < |s.sems|
  {
    if x.Sem? && q == x.i then D.Apply(s.sems[q], x.d)
    else if Touches(x) then D.Apply(s.sems[q], D.Disturb(Site(x), if Writes(x) then D.Other else D.Clear))
    else s.sems[q]
  }

  ghost function BusyAfter(s: State, x: Label): Busy
    requires WellFormed(s) && Enabled(s, x)
  {
    match x
    case Mem(r, l) =>
      if l.Ask? || l.Depart? then Calling(r) else if l.Enter? || l.Return? then Free else s.busy[l.k]
    case Sem(i, d) =>
      if d.Ask? then WaitingOn(i) else if d.StartSignal? then Signalling(i)
      else if d.Done? || d.Signal? then Free else s.busy[d.k]
  }

  ghost function Apply(s: State, x: Label): State
    requires WellFormed(s) && Enabled(s, x)
  {
    State(seq(|s.parts|, q requires 0 <= q < |s.parts| => Part(s, x, q)),
      seq(|s.sems|, q requires 0 <= q < |s.sems| => SemPart(s, x, q)),
      s.busy[Site(x) := BusyAfter(s, x)])
  }

  ghost predicate Runs(s: State, run: seq<Label>)
    decreases |run|
  {
    run == [] || (WellFormed(s) && Enabled(s, run[0]) && Runs(Apply(s, run[0]), run[1..]))
  }

  ghost function After(s: State, run: seq<Label>): State
    requires Runs(s, run)
    decreases |run|
  {
    if run == [] then s else After(Apply(s, run[0]), run[1..])
  }

  ghost predicate Init(s: State) {
    && WellFormed(s)
    && (forall r :: 0 <= r < |s.parts| ==> C.Init(s.parts[r]))
    && (forall i :: 0 <= i < |s.sems| ==> D.Init(s.sems[i]))
    && (forall k :: 0 <= k < |s.busy| ==> s.busy[k].Free?)
  }

  // ---------------------------------------------------------------- one call at a time

  // A client of memory r: it is in a call there exactly if its process is, and its request stands.
  ghost predicate ClientOk(x: C.Client, b: Busy, r: nat) {
    && (R.InCall(x.app) <==> b == Calling(r))
    && (R.InLock(x.app) ==> x.register.Own?)
  }

  // A site of semaphore i likewise; at most one application is in a call there.
  ghost predicate SiteOk(x: D.Site, b: Busy, i: nat) {
    && x.asking + x.woken == One(b == WaitingOn(i)) && x.leaving == One(b == Signalling(i))
    && (x.asking > 0 || x.woken > 0 ==> x.register.Own?)
  }

  ghost predicate PartOk(p: C.State, busy: seq<Busy>, r: nat) {
    |p.clients| == |busy| && forall k :: 0 <= k < |busy| ==> ClientOk(p.clients[k], busy[k], r)
  }

  ghost predicate SemOk(p: D.State, busy: seq<Busy>, i: nat) {
    |p.sites| == |busy| && forall k :: 0 <= k < |busy| ==> SiteOk(p.sites[k], busy[k], i)
  }

  ghost predicate Inv(s: State) {
    && WellFormed(s)
    && (forall r :: 0 <= r < |s.parts| ==> PartOk(s.parts[r], s.busy, r))
    && (forall i :: 0 <= i < |s.sems| ==> SemOk(s.sems[i], s.busy, i))
  }

  lemma InitInv(s: State)
    requires Init(s)
    ensures Inv(s)
  {
    forall r | 0 <= r < |s.parts| ensures PartOk(s.parts[r], s.busy, r) {
      assert C.Init(s.parts[r]);
    }
    forall i | 0 <= i < |s.sems| ensures SemOk(s.sems[i], s.busy, i) {
      assert D.Init(s.sems[i]);
    }
  }

  // The process is in a call on the memory or semaphore of the step.
  predicate InCallOf(x: Label, b: Busy) {
    match x case Mem(r, _) => b == Calling(r) case Sem(i, _) => b == WaitingOn(i) || b == Signalling(i)
  }

  // Only the site of a step is touched, and a step that touches its register is of its current call,
  // or begins one.
  lemma TouchedIsFree(s: State, x: Label)
    requires Inv(s) && Enabled(s, x) && Touches(x)
    ensures Site(x) < |s.busy|
    ensures s.busy[Site(x)].Free? || InCallOf(x, s.busy[Site(x)])
  {
    match x
    case Mem(r, l) => assert PartOk(s.parts[r], s.busy, r) && ClientOk(s.parts[r].clients[l.k], s.busy[l.k], r);
    case Sem(i, d) => assert SemOk(s.sems[i], s.busy, i) && SiteOk(s.sems[i].sites[d.k], s.busy[d.k], i);
  }

  lemma EndedIsOwn(s: State, x: Label)
    requires Inv(s) && Enabled(s, x)
    ensures Site(x) < |s.busy|
    ensures var b, c := s.busy[Site(x)], BusyAfter(s, x);
      c == b || ((b.Free? || InCallOf(x, b)) && (c.Free? || InCallOf(x, c)))
  {
    match x
    case Mem(r, l) => assert PartOk(s.parts[r], s.busy, r) && ClientOk(s.parts[r].clients[l.k], s.busy[l.k], r);
    case Sem(i, d) => assert SemOk(s.sems[i], s.busy, i) && SiteOk(s.sems[i].sites[d.k], s.busy[d.k], i);
  }

  lemma OwnPartOk(s: State, x: Label)
    requires Inv(s) && Enabled(s, x) && x.Mem?
    ensures PartOk(Part(s, x, x.r), Apply(s, x).busy, x.r)
  {
    assert PartOk(s.parts[x.r], s.busy, x.r);
    forall k | 0 <= k < |s.busy| ensures ClientOk(Part(s, x, x.r).clients[k], Apply(s, x).busy[k], x.r) {
      assert ClientOk(s.parts[x.r].clients[k], s.busy[k], x.r);
    }
  }

  lemma OtherPartOk(s: State, x: Label, q: nat)
    requires Inv(s) && Enabled(s, x) && q < |s.parts| && !(x.Mem? && x.r == q)
    ensures PartOk(Part(s, x, q), Apply(s, x).busy, q)
  {
    assert PartOk(s.parts[q], s.busy, q);
    EndedIsOwn(s, x);
    if Touches(x) {
      TouchedIsFree(s, x);
    }
    forall k | 0 <= k < |s.busy| ensures ClientOk(Part(s, x, q).clients[k], Apply(s, x).busy[k], q) {
      assert ClientOk(s.parts[q].clients[k], s.busy[k], q);
    }
  }

  lemma OwnSemOk(s: State, x: Label)
    requires Inv(s) && Enabled(s, x) && x.Sem?
    ensures SemOk(SemPart(s, x, x.i), Apply(s, x).busy, x.i)
  {
    assert SemOk(s.sems[x.i], s.busy, x.i);
    forall k | 0 <= k < |s.busy| ensures SiteOk(SemPart(s, x, x.i).sites[k], Apply(s, x).busy[k], x.i) {
      assert SiteOk(s.sems[x.i].sites[k], s.busy[k], x.i);
    }
  }

  lemma OtherSemOk(s: State, x: Label, q: nat)
    requires Inv(s) && Enabled(s, x) && q < |s.sems| && !(x.Sem? && x.i == q)
    ensures SemOk(SemPart(s, x, q), Apply(s, x).busy, q)
  {
    assert SemOk(s.sems[q], s.busy, q);
    EndedIsOwn(s, x);
    if Touches(x) {
      TouchedIsFree(s, x);
    }
    forall k | 0 <= k < |s.busy| ensures SiteOk(SemPart(s, x, q).sites[k], Apply(s, x).busy[k], q) {
      assert SiteOk(s.sems[q].sites[k], s.busy[k], q);
    }
  }

  lemma PartKept(s: State, x: Label, q: nat)
    requires Inv(s) && Enabled(s, x) && q < |s.parts|
    ensures C.WellFormed(Part(s, x, q)) && PartOk(Part(s, x, q), Apply(s, x).busy, q)
  {
    if x.Mem? && x.r == q {
      OwnPartOk(s, x);
      C.StepStaysSized(s.parts[q], x.l);
    } else {
      OtherPartOk(s, x, q);
    }
  }

  lemma CurrentKept(p: D.State, d: D.Label)
    requires p.current < |p.sites| && D.Enabled(p, d)
    ensures D.Apply(p, d).current < |D.Apply(p, d).sites| == |p.sites|
  {
  }

  lemma SemKept(s: State, x: Label, q: nat)
    requires Inv(s) && Enabled(s, x) && q < |s.sems|
    ensures SemPart(s, x, q).current < |SemPart(s, x, q).sites| && SemOk(SemPart(s, x, q), Apply(s, x).busy, q)
  {
    if x.Sem? && x.i == q {
      OwnSemOk(s, x);
      CurrentKept(s.sems[q], x.d);
    } else {
      OtherSemOk(s, x, q);
    }
  }

  lemma InvOf(t: State)
    requires forall q :: 0 <= q < |t.parts| ==> C.WellFormed(t.parts[q]) && PartOk(t.parts[q], t.busy, q)
    requires forall q :: 0 <= q < |t.sems| ==> t.sems[q].current < |t.sems[q].sites| && SemOk(t.sems[q], t.busy, q)
    ensures Inv(t)
  {
    forall q | 0 <= q < |t.parts| ensures |t.parts[q].clients| == |t.busy| {
      assert PartOk(t.parts[q], t.busy, q);
    }
    forall q | 0 <= q < |t.sems| ensures |t.sems[q].sites| == |t.busy| {
      assert SemOk(t.sems[q], t.busy, q);
    }
  }

  lemma StepKeeps(s: State, x: Label)
    requires Inv(s) && Enabled(s, x)
    ensures Inv(Apply(s, x)) && |Apply(s, x).parts| == |s.parts| && |Apply(s, x).sems| == |s.sems|
  {
    var t := Apply(s, x);
    forall q | 0 <= q < |t.parts| ensures C.WellFormed(t.parts[q]) && PartOk(t.parts[q], t.busy, q) {
      PartKept(s, x, q);
    }
    forall q | 0 <= q < |t.sems| ensures t.sems[q].current < |t.sems[q].sites| && SemOk(t.sems[q], t.busy, q) {
      SemKept(s, x, q);
    }
    InvOf(t);
  }

  lemma {:induction false} RunKeeps(s: State, run: seq<Label>)
    requires Inv(s) && Runs(s, run)
    ensures Inv(After(s, run)) && |After(s, run).parts| == |s.parts| && |After(s, run).sems| == |s.sems|
    decreases |run|
  {
    if run != [] {
      StepKeeps(s, run[0]);
      RunKeeps(Apply(s, run[0]), run[1..]);
    }
  }

  /** With one calling process per site every request stands: in every reachable state of all memories
      and semaphores together, every `lock` and every `wait_on` in progress is the only call of its
      site and has its name in the register until it is let through. */
  lemma RequestsStand(s: State, run: seq<Label>, k: nat)
    requires Init(s) && Runs(s, run) && k < |s.busy|
    ensures var t := After(s, run);
      && (forall r :: 0 <= r < |t.parts| && k < |t.parts[r].clients| && R.InLock(t.parts[r].clients[k].app) ==>
            t.parts[r].clients[k].register.Own? && !C.Forgotten(t.parts[r], k))
      && (forall i :: 0 <= i < |t.sems| && k < |t.sems[i].sites| && t.sems[i].sites[k].asking > 0 ==>
            && t.sems[i].sites[k].asking == 1 && t.sems[i].sites[k].woken == 0 && t.sems[i].sites[k].leaving == 0
            && t.sems[i].sites[k].register.Own? && !D.Forgotten(t.sems[i], k))
  {
    InitInv(s);
    RunKeeps(s, run);
    var t := After(s, run);
    forall r | 0 <= r < |t.parts| && k < |t.parts[r].clients| && R.InLock(t.parts[r].clients[k].app)
      ensures t.parts[r].clients[k].register.Own? {
      assert PartOk(t.parts[r], t.busy, r) && ClientOk(t.parts[r].clients[k], t.busy[k], r);
    }
    forall i | 0 <= i < |t.sems| && k < |t.sems[i].sites| && t.sems[i].sites[k].asking > 0
      ensures SiteOk(t.sems[i].sites[k], t.busy[k], i) {
      assert SemOk(t.sems[i], t.busy, i);
    }
  }

  // ---------------------------------------------------------------- one word for all of them

  // What the register of a site holds: nothing, or the name of a memory or of a semaphore.
  datatype Word = Empty | Memory(r: nat) | Semaphore(i: nat)

  // `lock` and `wait_on` write their own name; `lock` and `wait_on` clear the register when they have
  // been let through, `unlock` and `signalize` when they begin.
  function WordAfter(x: Label, k: nat, w: Word): Word {
    if Site(x) != k then w
    else match x
      case Mem(r, l) => if l.Ask? then Memory(r) else if l.Enter? || l.Depart? then Empty else w
      case Sem(i, d) => if d.Ask? then Semaphore(i) else if d.Done? || d.StartSignal? then Empty else w
  }

  function LastWord(run: seq<Label>, k: nat, w: Word): Word
    decreases |run|
  {
    if run == [] then w else LastWord(run[1..], k, WordAfter(run[0], k, w))
  }

  function MemorySees(w: Word, r: nat): C.Register {
    if w.Empty? then C.Clear else if w == Memory(r) then C.Own else C.Other
  }

  function SemaphoreSees(w: Word, i: nat): D.Register {
    if w.Empty? then D.Clear else if w == Semaphore(i) then D.Own else D.Other
  }

  // All memories and semaphores see the same word at site k.
  ghost predicate Shows(s: State, k: nat, w: Word) {
    && (forall r :: 0 <= r < |s.parts| ==>
          k < |s.parts[r].clients| && s.parts[r].clients[k].register == MemorySees(w, r))
    && (forall i :: 0 <= i < |s.sems| ==>
          k < |s.sems[i].sites| && s.sems[i].sites[k].register == SemaphoreSees(w, i))
  }

  lemma OwnPartShows(s: State, r: nat, l: C.Label, k: nat, w: Word)
    requires WellFormed(s) && Enabled(s, Mem(r, l)) && Shows(s, k, w)
    ensures k < |Part(s, Mem(r, l), r).clients|
    ensures Part(s, Mem(r, l), r).clients[k].register == MemorySees(WordAfter(Mem(r, l), k, w), r)
  {
  }

  lemma PartShows(s: State, x: Label, k: nat, w: Word, q: nat)
    requires WellFormed(s) && Enabled(s, x) && Shows(s, k, w) && q < |s.parts|
    ensures k < |Part(s, x, q).clients|
    ensures Part(s, x, q).clients[k].register == MemorySees(WordAfter(x, k, w), q)
  {
    if x.Mem? && x.r == q {
      OwnPartShows(s, q, x.l, k, w);
    } else if Touches(x) {
      SeenShows(s, x, k, w, q);
    }
  }

  // What another memory sees of a call.
  lemma SeenShows(s: State, x: Label, k: nat, w: Word, q: nat)
    requires WellFormed(s) && Enabled(s, x) && Shows(s, k, w) && q < |s.parts| && !(x.Mem? && x.r == q) && Touches(x)
    ensures k < |Part(s, x, q).clients|
    ensures Part(s, x, q).clients[k].register == MemorySees(WordAfter(x, k, w), q)
  {
  }

  lemma SemShows(s: State, x: Label, k: nat, w: Word, q: nat)
    requires WellFormed(s) && Enabled(s, x) && Shows(s, k, w) && q < |s.sems|
    ensures k < |SemPart(s, x, q).sites|
    ensures SemPart(s, x, q).sites[k].register == SemaphoreSees(WordAfter(x, k, w), q)
  {
  }

  lemma StepShows(s: State, x: Label, k: nat, w: Word)
    requires WellFormed(s) && Enabled(s, x) && Shows(s, k, w)
    ensures Shows(Apply(s, x), k, WordAfter(x, k, w))
  {
    var t := Apply(s, x);
    forall q | 0 <= q < |t.parts|
      ensures k < |t.parts[q].clients| && t.parts[q].clients[k].register == MemorySees(WordAfter(x, k, w), q) {
      PartShows(s, x, k, w, q);
    }
    forall q | 0 <= q < |t.sems|
      ensures k < |t.sems[q].sites| && t.sems[q].sites[k].register == SemaphoreSees(WordAfter(x, k, w), q) {
      SemShows(s, x, k, w, q);
    }
  }

  /** The views that the memories and semaphores of a site have of its register are those of one
      word, which holds what the last call of the site to touch it has left, over every run. */
  lemma {:induction false} RegisterIsOneWord(s: State, run: seq<Label>, k: nat, w: Word)
    requires Runs(s, run) && Shows(s, k, w)
    ensures Shows(After(s, run), k, LastWord(run, k, w))
    decreases |run|
  {
    if run != [] {
      StepShows(s, run[0], k, w);
      RegisterIsOneWord(Apply(s, run[0]), run[1..], k, WordAfter(run[0], k, w));
    }
  }
}
