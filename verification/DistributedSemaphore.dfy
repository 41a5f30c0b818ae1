/**
 One distributed semaphore: a token stands for each unit of its value. At every site tokens
 pass from the queue of its slot through the handler and the socket to the communicator,
 which asks the register of the site whether an application waits for this semaphore, and
 hands the token over or sends it back. Any number of applications of a site use it.
 */
module DistributedSemaphore {
  import opened Sums
  import opened Wakeups
  import opened ClientTables

  // What the site's register of the awaited token says, seen from this semaphore.
  datatype Register = Clear | Own | Other

  // The communicator's parent: it has received a token, and has compared it with the register.
  datatype Parent = Empty | Received | Matched | Unmatched

  datatype Site = Site(
    queue: nat,
    child: bool,       // the handler's child has locked a token and has yet to send it
    down: nat,         // on the socket to the client
    parent: Parent,
    given: nat,        // the local semaphore the applications wait on
    back: nat,         // the local semaphore that sends tokens home
    sender: bool,      // the communicator's child has taken one from `back`
    up: nat,           // on the socket to the broker
    father: bool,      // the handler's parent has received one and has yet to release it
    register: Register,
    asking: nat,       // applications in `wait_on`, before the local semaphore lets them through
    woken: nat,        // applications in `wait_on`, behind it: they have yet to clear the register
    leaving: nat)      // applications in `signalize` that have cleared the register

  datatype State = State(
    releases: nat, current: nat, sites: seq<Site>,
    waits: nat, signals: nat)   // units taken by waits, and given by signals

  datatype Label =
    | Pass(k: nat) | Pull(k: nat) | SendDown(k: nat) | ReceiveDown(k: nat)
    | Compare(k: nat) | Deliver(k: nat) | Forward(k: nat)
    | Collect(k: nat) | SendUp(k: nat) | ReceiveUp(k: nat) | Release(k: nat)
    | Ask(k: nat) | Wake(k: nat) | Done(k: nat) | StartSignal(k: nat) | Signal(k: nat)
    | Disturb(k: nat, r: Register)   // another resource of the site uses the register

  // All sites have joined and are numbered as their slots: the manager takes them in turn.
  ghost predicate Enabled(s: State, l: Label) {
    && l.k < |s.sites| && s.current < |s.sites|
    && var x := s.sites[l.k];
       match l
       case Pass(k) => s.releases > 0 && k == NextSlot(s.current, |s.sites|)
       case Pull(_) => !x.child && x.queue > 0
       case SendDown(_) => x.child
       case ReceiveDown(_) => x.parent.Empty? && x.down > 0
       case Compare(_) => x.parent.Received?
       case Deliver(_) => x.parent.Matched?
       case Forward(_) => x.parent.Unmatched?
       case Collect(_) => !x.sender && x.back > 0
       case SendUp(_) => x.sender
       case ReceiveUp(_) => !x.father && x.up > 0
       case Release(_) => x.father
       case Wake(_) => x.asking > 0 && x.given > 0
       case Done(_) => x.woken > 0
       case Signal(_) => x.leaving > 0
       case Disturb(_, r) => !r.Own?
       case _ => true
  }

  // What a step does to its site.
  ghost function Moved(s: State, l: Label): Site
    requires Enabled(s, l)
  {
    var x := s.sites[l.k];
    match l
    case Pass(_) => x.(queue := x.queue + 1)
    case Pull(_) => x.(queue := x.queue - 1, child := true)
    case SendDown(_) => x.(child := false, down := x.down + 1)
    case ReceiveDown(_) => x.(down := x.down - 1, parent := Received)
    case Compare(_) => x.(parent := if x.register.Own? then Matched else Unmatched)
    case Deliver(_) => x.(parent := Empty, given := x.given + 1)
    case Forward(_) => x.(parent := Empty, back := x.back + 1)
    case Collect(_) => x.(back := x.back - 1, sender := true)
    case SendUp(_) => x.(sender := false, up := x.up + 1)
    case ReceiveUp(_) => x.(up := x.up - 1, father := true)
    case Release(_) => x.(father := false)
    case Ask(_) => x.(register := Own, asking := x.asking + 1)
    case Wake(_) => x.(asking := x.asking - 1, given := x.given - 1, woken := x.woken + 1)
    case Done(_) => x.(register := Clear, woken := x.woken - 1)
    case StartSignal(_) => x.(register := Clear, leaving := x.leaving + 1)
    case Signal(_) => x.(leaving := x.leaving - 1, back := x.back + 1)
    case Disturb(_, r) => x.(register := r)
  }

  ghost function Apply(s: State, l: Label): State
    requires Enabled(s, l)
  {
    var t := s.(sites := s.sites[l.k := Moved(s, l)]);
    match l
    case Pass(k) => t.(releases := s.releases - 1, current := k)
    case Release(_) => t.(releases := s.releases + 1)
    case Wake(_) => t.(waits := s.waits + 1)
    case Signal(_) => t.(signals := s.signals + 1)
    case _ => t
  }

  ghost predicate Runs(s: State, run: seq<Label>)
    decreases |run|
  {
    run == [] || (Enabled(s, run[0]) && Runs(Apply(s, run[0]), run[1..]))
  }

  ghost function After(s: State, run: seq<Label>): State
    requires Runs(s, run)
    decreases |run|
  {
    if run == [] then s else After(Apply(s, run[0]), run[1..])
  }

  // All units are in the manager's queue, and nobody has called anything.
  ghost predicate Init(s: State) {
    && s.current == 0 < |s.sites| && s.waits == 0 && s.signals == 0
    && forall k :: 0 <= k < |s.sites| ==>
         s.sites[k] == Site(0, false, 0, Empty, 0, 0, false, 0, false, Clear, 0, 0, 0)
  }

  ghost predicate Reachable(s: State, t: State) {
    exists run :: Runs(s, run) && After(s, run) == t
  }

  lemma {:induction false} RunsOn(s: State, run: seq<Label>, l: Label)
    requires Runs(s, run) && Enabled(After(s, run), l)
    ensures Runs(s, run + [l]) && After(s, run + [l]) == Apply(After(s, run), l)
    decreases |run|
  {
    if run == [] {
      assert [l][1..] == [] && run + [l] == [l];
      assert Runs(Apply(s, l), []);
    } else {
      assert (run + [l])[0] == run[0] && (run + [l])[1..] == run[1..] + [l];
      RunsOn(Apply(s, run[0]), run[1..], l);
    }
  }

  lemma ReachOn(s: State, t: State, l: Label)
    requires Reachable(s, t) && Enabled(t, l)
    ensures Reachable(s, Apply(t, l))
  {
    var run :| Runs(s, run) && After(s, run) == t;
    RunsOn(s, run, l);
  }

  lemma ReachSelf(s: State)
    ensures Reachable(s, s)
  {
    var none: seq<Label> := [];
    assert Runs(s, none) && After(s, none) == s;
  }

  // ---------------------------------------------------------------- conservation

  // Tokens that have yet to be compared with the register.
  function Pre(x: Site): nat {
    x.queue + One(x.child) + x.down + One(x.parent.Received?)
  }

  // Tokens on their way home.
  function Post(x: Site): nat {
    One(x.parent.Unmatched?) + x.back + One(x.sender) + x.up + One(x.father)
  }

  function Tokens(x: Site): nat {
    Pre(x) + One(x.parent.Matched?) + x.given + Post(x)
  }

  function Each(sites: seq<Site>, f: Site -> nat): (r: seq<nat>)
    ensures |r| == |sites| && forall k :: 0 <= k < |r| ==> r[k] == f(sites[k])
  {
    seq(|sites|, k requires 0 <= k < |sites| => f(sites[k]))
  }

  ghost function Total(s: State): nat {
    s.releases + Sum(Each(s.sites, Tokens))
  }

  lemma MovedConserves(s: State, l: Label)
    requires Enabled(s, l)
    ensures Tokens(Moved(s, l)) + One(l.Release?) + One(l.Wake?) == Tokens(s.sites[l.k]) + One(l.Pass?) + One(l.Signal?)
  {
  }

  lemma StepConserves(s: State, l: Label)
    requires Enabled(s, l)
    ensures var t := Apply(s, l);
      |t.sites| == |s.sites| && Total(t) + t.waits + s.signals == Total(s) + s.waits + t.signals
  {
    MovedConserves(s, l);
    SumChangesAt(Each(s.sites, Tokens), Each(Apply(s, l).sites, Tokens), l.k);
  }

  lemma {:induction false} RunConserves(s: State, run: seq<Label>)
    requires Runs(s, run)
    ensures var t := After(s, run);
      |t.sites| == |s.sites| && Total(t) + t.waits + s.signals == Total(s) + s.waits + t.signals
    decreases |run|
  {
    if run != [] {
      StepConserves(s, run[0]);
      RunConserves(Apply(s, run[0]), run[1..]);
    }
  }

  /** Wherever the tokens are, there are as many as the initial value plus the completed signals
      less the completed waits, over all sites; so no wait completes without a unit to take. */
  lemma TokensAreTheValue(s: State, run: seq<Label>)
    requires Runs(s, run) && s.waits == 0 && s.signals == 0
    ensures var t := After(s, run);
      && Total(t) == Total(s) + t.signals - t.waits
      && t.waits <= Total(s) + t.signals
  {
    RunConserves(s, run);
  }

  // The register names the semaphore only while an application is inside `wait_on`.
  ghost predicate Honest(s: State) {
    && s.current < |s.sites|
    && forall k :: 0 <= k < |s.sites| && s.sites[k].register.Own? ==> s.sites[k].asking > 0 || s.sites[k].woken > 0
  }

  lemma StepKeepsHonest(s: State, l: Label)
    requires Honest(s) && Enabled(s, l)
    ensures Honest(Apply(s, l))
  {
  }

  lemma InitHonest(s: State)
    requires Init(s)
    ensures Honest(s)
  {
  }

  lemma {:induction false} RunKeepsHonest(s: State, run: seq<Label>)
    requires Honest(s) && Runs(s, run)
    ensures Honest(After(s, run))
    decreases |run|
  {
    if run != [] {
      StepKeepsHonest(s, run[0]);
      RunKeepsHonest(Apply(s, run[0]), run[1..]);
    }
  }

  // ---------------------------------------------------------------- who can still be served

  // Steps that finish what is going on: no new call, no other resource at the register.
  predicate Internal(l: Label) {
    !l.Ask? && !l.StartSignal? && !l.Disturb?
  }

  ghost predicate InternalRun(s: State, run: seq<Label>) {
    Runs(s, run) && forall i :: 0 <= i < |run| ==> Internal(run[i])
  }

  ghost predicate CanServe(s: State, k: nat) {
    exists run :: InternalRun(s, run) && Enabled(After(s, run), Wake(k))
  }

  // The standing request of a site takes the next token that is compared there, unless one has
  // been matched or given already: then its application wakes and clears the register.
  predicate Takes(x: Site) {
    x.register.Own? && x.woken == 0 && x.given == 0 && !x.parent.Matched?
  }

  // Tokens at a site other than k that can still leave it, those about to be signalled included.
  function Spare(x: Site): nat {
    Post(x) + x.leaving + if Pre(x) > One(Takes(x)) then Pre(x) - One(Takes(x)) else 0
  }

  // The next token that the manager passes to such a site stays there.
  function Tolled(x: Site): nat {
    One(Takes(x) && Pre(x) == 0)
  }

  ghost function SpareAt(s: State, k: nat, j: nat): nat
    requires k < |s.sites| && j < |s.sites|
  {
    if j == k then Post(s.sites[j]) + s.sites[j].leaving else Spare(s.sites[j])
  }

  // Site j comes before k in the manager's turn and takes the token that passes it.
  ghost function TollAt(s: State, k: nat, j: nat): nat
    requires k < |s.sites| && j < |s.sites| && s.current < |s.sites|
  {
    if Turn(s.current, j, |s.sites|) < Turn(s.current, k, |s.sites|) then Tolled(s.sites[j]) else 0
  }

  ghost function Spares(s: State, k: nat): (r: seq<nat>)
    requires k < |s.sites|
    ensures |r| == |s.sites| && forall j :: 0 <= j < |r| ==> r[j] == SpareAt(s, k, j)
  {
    seq(|s.sites|, j requires 0 <= j < |s.sites| => SpareAt(s, k, j))
  }

  ghost function Tolls(s: State, k: nat): (r: seq<nat>)
    requires k < |s.sites| && s.current < |s.sites|
    ensures |r| == |s.sites| && forall j :: 0 <= j < |r| ==> r[j] == TollAt(s, k, j)
  {
    seq(|s.sites|, j requires 0 <= j < |s.sites| => TollAt(s, k, j))
  }

  // Tokens that can pass through the manager once more.
  ghost function Free(s: State, k: nat): nat
    requires k < |s.sites|
  {
    s.releases + Sum(Spares(s, k))
  }

  // Sites on the manager's way to k whose standing requests each take one of them.
  ghost function Toll(s: State, k: nat): nat
    requires k < |s.sites| && s.current < |s.sites|
  {
    Sum(Tolls(s, k))
  }

  ghost predicate Servable(s: State, k: nat) {
    && k < |s.sites| && s.current < |s.sites|
    && var x := s.sites[k];
       && x.asking > 0
       && (x.given > 0 || x.parent.Matched? || (x.register.Own? && (Pre(x) > 0 || Free(s, k) > Toll(s, k))))
  }

  // ---------------------------------------------------------------- no more than that

  // What an internal step does to the tokens its own site can spare: releases are counted by the
  // manager; a token that is matched while another is already meant for the waiter is lost.
  lemma MovedKeepsSpare(s: State, l: Label)
    requires Enabled(s, l) && Internal(l) && !l.Pass?
    ensures Tolled(Moved(s, l)) == Tolled(s.sites[l.k])
    ensures Spare(Moved(s, l)) + One(l.Release?) <= Spare(s.sites[l.k])
    ensures Pre(s.sites[l.k]) == 0 ==>
      Post(Moved(s, l)) + Moved(s, l).leaving + One(l.Release?) <= Post(s.sites[l.k]) + s.sites[l.k].leaving
  {
  }

  lemma OneSiteChanges(s: State, l: Label, k: nat)
    requires Enabled(s, l) && k < |s.sites| && !l.Pass?
    ensures var t := Apply(s, l);
      && |t.sites| == |s.sites| && t.current == s.current
      && Sum(Spares(t, k)) + SpareAt(s, k, l.k) == Sum(Spares(s, k)) + SpareAt(t, k, l.k)
      && Toll(t, k) + TollAt(s, k, l.k) == Toll(s, k) + TollAt(t, k, l.k)
  {
    SumChangesAt(Spares(s, k), Spares(Apply(s, l), k), l.k);
    SumChangesAt(Tolls(s, k), Tolls(Apply(s, l), k), l.k);
  }

  lemma PassedTo(x: Site)
    ensures Spare(x.(queue := x.queue + 1)) + Tolled(x) == Spare(x) + 1
  {
  }

  // Passing a token to another site than k: the site takes it or it stays free.
  lemma PassKeepsBalance(s: State, k: nat, j: nat)
    requires Enabled(s, Pass(j)) && k < |s.sites| && j != k
    ensures var t := Apply(s, Pass(j));
      && |t.sites| == |s.sites| && t.current < |t.sites|
      && Free(t, k) + Toll(s, k) == Free(s, k) + Toll(t, k)
      && Turn(t.current, k, |t.sites|) < Turn(s.current, k, |s.sites|)
  {
    var t := Apply(s, Pass(j));
    TurnShifts(s.current, |s.sites|);
    TurnShifts(j, |s.sites|);
    PassedTo(s.sites[j]);
    SumChangesAt(Spares(s, k), Spares(t, k), j);
    SumChangesAt(Tolls(s, k), Tolls(t, k), j);
  }

  lemma NothingBetween(s: State, k: nat)
    requires k < |s.sites| && s.current < |s.sites| && k == NextSlot(s.current, |s.sites|)
    ensures Toll(s, k) == 0
  {
    SumZero(Tolls(s, k));
  }

  // No internal step leaves more free tokens than there are sites that take them first.
  lemma BalanceFalls(s: State, k: nat, l: Label)
    requires Enabled(s, l) && Internal(l) && k < |s.sites| && l != Pass(k)
    requires l.k == k ==> Pre(s.sites[k]) == 0
    ensures var t := Apply(s, l);
      && |t.sites| == |s.sites| && t.current < |t.sites|
      && Free(t, k) + Toll(s, k) <= Free(s, k) + Toll(t, k)
  {
    if l.Pass? {
      PassKeepsBalance(s, k, l.k);
    } else {
      MovedKeepsSpare(s, l);
      OneSiteChanges(s, l, k);
    }
  }

  // With its request standing, k is not served because the others take all that is free.
  lemma OutbidStays(s: State, k: nat, l: Label)
    requires k < |s.sites| && !Servable(s, k) && Enabled(s, l) && Internal(l)
    requires s.sites[k].asking > 0 && s.sites[k].register.Own?
    ensures !Servable(Apply(s, l), k)
  {
    if l == Pass(k) {
      NothingBetween(s, k);
    } else {
      BalanceFalls(s, k, l);
    }
  }

  lemma UnservableStays(s: State, k: nat, l: Label)
    requires k < |s.sites| && !Servable(s, k) && Enabled(s, l) && Internal(l)
    ensures !Servable(Apply(s, l), k) && l != Wake(k)
  {
    if s.sites[k].asking > 0 && s.sites[k].register.Own? {
      OutbidStays(s, k, l);
    }
  }

  lemma {:induction false} UnservableForRun(s: State, k: nat, run: seq<Label>)
    requires k < |s.sites| && !Servable(s, k) && InternalRun(s, run)
    ensures !Enabled(After(s, run), Wake(k))
    decreases |run|
  {
    if run != [] {
      assert Internal(run[0]);
      UnservableStays(s, k, run[0]);
      forall i | 0 <= i < |run[1..]| ensures Internal(run[1..][i]) {
        assert run[1..][i] == run[i + 1];
      }
      UnservableForRun(Apply(s, run[0]), k, run[1..]);
    }
  }

  // ---------------------------------------------------------------- and no less

  // Steps left of all tokens and applications until the next passes.
  function SiteWork(x: Site): nat {
    11 * x.queue + 10 * One(x.child) + 9 * x.down
    + (match x.parent case Empty => 0 case Received => 8 case _ => 7)
    + 7 * x.leaving + 6 * x.back + 5 * One(x.sender) + 4 * x.up + 3 * One(x.father)
    + 2 * x.asking + x.woken
  }

  ghost function Work(s: State): nat {
    2 * s.releases + Sum(Each(s.sites, SiteWork))
  }

  lemma MovedWork(s: State, l: Label)
    requires Enabled(s, l) && Internal(l) && !l.Pass?
    ensures SiteWork(Moved(s, l)) + 2 * One(l.Release?) < SiteWork(s.sites[l.k])
  {
  }

  lemma WorkFalls(s: State, l: Label)
    requires Enabled(s, l) && Internal(l) && !l.Pass?
    ensures Work(Apply(s, l)) < Work(s)
  {
    MovedWork(s, l);
    SumChangesAt(Each(s.sites, SiteWork), Each(Apply(s, l).sites, SiteWork), l.k);
  }

  lemma ServedLater(s: State, k: nat, l: Label)
    requires Enabled(s, l) && Internal(l) && CanServe(Apply(s, l), k)
    ensures CanServe(s, k)
  {
    var run :| InternalRun(Apply(s, l), run) && Enabled(After(Apply(s, l), run), Wake(k));
    var longer := [l] + run;
    assert longer[1..] == run;
    assert InternalRun(s, longer) && Enabled(After(s, longer), Wake(k));
  }

  lemma {:induction false} SomePositive(xs: seq<nat>) returns (j: nat)
    requires Sum(xs) > 0
    ensures j < |xs| && xs[j] > 0
  {
    if xs[0] > 0 {
      return 0;
    }
    var i := SomePositive(xs[1..]);
    return i + 1;
  }

  // The step that brings a spare token of a site nearer to the manager: the foremost one moves;
  // before a token is compared the site's own waiter is let out, if it has what it waits for.
  ghost function Onward(x: Site, j: nat): Label {
    if x.father then Release(j)
    else if x.up > 0 then ReceiveUp(j)
    else if x.sender then SendUp(j)
    else if x.back > 0 then Collect(j)
    else if x.leaving > 0 then Signal(j)
    else match x.parent
      case Matched => Deliver(j)
      case Unmatched => Forward(j)
      case Received =>
        if x.register.Own? && x.woken > 0 then Done(j)
        else if x.register.Own? && x.given > 0 then Wake(j)
        else Compare(j)
      case Empty => if x.down > 0 then ReceiveDown(j) else if x.child then SendDown(j) else Pull(j)
  }

  predicate OnTheWayHome(x: Site) {
    x.father || x.up > 0 || x.sender || x.back > 0 || x.leaving > 0
  }

  predicate Homeward(l: Label) {
    l.Release? || l.ReceiveUp? || l.SendUp? || l.Collect? || l.Signal?
  }

  lemma HomewardKeepsAll(s: State, l: Label)
    requires Enabled(s, l) && Homeward(l)
    ensures Spare(Moved(s, l)) + One(l.Release?) == Spare(s.sites[l.k])
  {
  }

  lemma HomewardSpares(s: State, j: nat)
    requires s.current < |s.sites| && j < |s.sites| && OnTheWayHome(s.sites[j])
    ensures var l := Onward(s.sites[j], j); Enabled(s, l) && Homeward(l) && l.k == j
  {
  }

  lemma ComparedSpares(s: State, j: nat)
    requires Honest(s) && j < |s.sites| && Spare(s.sites[j]) > 0 && !OnTheWayHome(s.sites[j])
    ensures var l := Onward(s.sites[j], j);
      && Enabled(s, l) && Internal(l) && !l.Pass? && l.k == j
      && Spare(Moved(s, l)) + One(l.Release?) == Spare(s.sites[j])
  {
    var l := Onward(s.sites[j], j);
    assert Enabled(s, l);
  }

  lemma OnwardSpares(s: State, j: nat)
    requires Honest(s) && j < |s.sites| && Spare(s.sites[j]) > 0
    ensures var l := Onward(s.sites[j], j);
      && Enabled(s, l) && Internal(l) && !l.Pass? && l.k == j
      && Spare(Moved(s, l)) + One(l.Release?) == Spare(s.sites[j])
  {
    if OnTheWayHome(s.sites[j]) {
      HomewardSpares(s, j);
      HomewardKeepsAll(s, Onward(s.sites[j], j));
    } else {
      ComparedSpares(s, j);
    }
  }

  lemma OnwardKeepsSpare(s: State, k: nat, j: nat)
    requires Honest(s) && k < |s.sites| && j < |s.sites| && j != k && SpareAt(s, k, j) > 0
    ensures var l := Onward(s.sites[j], j);
      && Enabled(s, l) && Internal(l) && !l.Pass? && l.k == j
      && Free(Apply(s, l), k) + Toll(s, k) == Free(s, k) + Toll(Apply(s, l), k)
  {
    var l := Onward(s.sites[j], j);
    OnwardSpares(s, j);
    MovedKeepsSpare(s, l);
    OneSiteChanges(s, l, k);
  }

  // At k itself only tokens on their way home are moved.
  lemma HomewardKeepsSpare(s: State, k: nat)
    requires Honest(s) && k < |s.sites| && SpareAt(s, k, k) > 0 && s.sites[k].parent.Empty?
    ensures var l := Onward(s.sites[k], k);
      && Enabled(s, l) && Internal(l) && !l.Pass? && l.k == k
      && Free(Apply(s, l), k) + Toll(s, k) == Free(s, k) + Toll(Apply(s, l), k)
      && Moved(s, l).register == s.sites[k].register && Moved(s, l).asking == s.sites[k].asking
  {
    OneSiteChanges(s, Onward(s.sites[k], k), k);
  }

  // The step by which a token that has come to k gets nearer to the application.
  ghost function Inward(x: Site, k: nat): Label {
    match x.parent
    case Matched => Deliver(k)
    case Unmatched => Forward(k)
    case Received => Compare(k)
    case Empty => if x.down > 0 then ReceiveDown(k) else if x.child then SendDown(k) else Pull(k)
  }

  // A token is compared at another site, where the request still stands of an application that has
  // its token already: it is given to nobody.
  ghost predicate Wasteful(s: State, k: nat, l: Label) {
    l.Compare? && l.k != k && l.k < |s.sites| && s.sites[l.k].register.Own? && !Takes(s.sites[l.k])
  }

  // A step of the wanted kind: it keeps k servable and gets nearer to serving it.
  ghost predicate Nearer(s: State, k: nat, l: Label) {
    && k < |s.sites| && s.current < |s.sites| && Enabled(s, l) && Internal(l)
    && !Wasteful(s, k, l) && l != Wake(k) && l != Done(k)
    && var t := Apply(s, l);
       && Servable(t, k) && |t.sites| == |s.sites|
       && if l.Pass? then Way(t, k) < Way(s, k) else Way(t, k) <= Way(s, k)
  }

  lemma InwardIsNearer(s: State, k: nat)
    requires Servable(s, k) && s.sites[k].given == 0
    requires Pre(s.sites[k]) > 0 || s.sites[k].parent.Matched?
    ensures Nearer(s, k, Inward(s.sites[k], k))
  {
  }

  lemma PassIsNearer(s: State, k: nat)
    requires Servable(s, k) && s.releases > 0 && Way(s, k) > 0
    ensures Nearer(s, k, Pass(NextSlot(s.current, |s.sites|)))
  {
    var j := NextSlot(s.current, |s.sites|);
    if j != k {
      PassKeepsBalance(s, k, j);
    }
  }

  lemma OnwardIsNearer(s: State, k: nat, j: nat)
    requires Honest(s) && Servable(s, k) && Way(s, k) > 0 && j < |s.sites| && SpareAt(s, k, j) > 0
    requires j == k ==> s.sites[k].parent.Empty?
    ensures Nearer(s, k, Onward(s.sites[j], j)) && !Onward(s.sites[j], j).Pass?
  {
    if j == k {
      HomewardKeepsSpare(s, k);
    } else {
      OnwardKeepsSpare(s, k, j);
    }
  }

  lemma UnmatchedIsNearer(s: State, k: nat)
    requires Servable(s, k) && Way(s, k) > 0 && s.sites[k].parent.Unmatched?
    ensures Nearer(s, k, Forward(k))
  {
    OneSiteChanges(s, Forward(k), k);
  }

  lemma NearerStep(s: State, k: nat) returns (l: Label)
    requires Honest(s) && Servable(s, k) && s.sites[k].given == 0
    ensures Nearer(s, k, l)
  {
    var x := s.sites[k];
    if Pre(x) > 0 || x.parent.Matched? {
      l := Inward(x, k);
      InwardIsNearer(s, k);
    } else if s.releases > 0 {
      l := Pass(NextSlot(s.current, |s.sites|));
      PassIsNearer(s, k);
    } else if x.parent.Unmatched? {
      l := Forward(k);
      UnmatchedIsNearer(s, k);
    } else {
      var j := SomePositive(Spares(s, k));
      l := Onward(s.sites[j], j);
      OnwardIsNearer(s, k, j);
    }
  }

  // The manager's way to k, counted as nothing once a token has come.
  ghost function Way(s: State, k: nat): nat
    requires k < |s.sites| && s.current < |s.sites|
  {
    if Pre(s.sites[k]) > 0 || s.sites[k].parent.Matched? || s.sites[k].given > 0 then 0
    else Turn(s.current, k, |s.sites|)
  }

  lemma {:induction false} ServableIsServed(s: State, k: nat)
    requires Honest(s) && Servable(s, k)
    ensures CanServe(s, k)
    decreases Way(s, k), Work(s)
  {
    if s.sites[k].given > 0 {
      var none: seq<Label> := [];
      assert InternalRun(s, none) && Enabled(After(s, none), Wake(k));
    } else {
      var l := NearerStep(s, k);
      StepKeepsHonest(s, l);
      if !l.Pass? {
        WorkFalls(s, l);
      }
      ServableIsServed(Apply(s, l), k);
      ServedLater(s, k, l);
    }
  }

  lemma ServedExactlyFrom(s: State, k: nat)
    requires Honest(s) && k < |s.sites|
    ensures CanServe(s, k) <==> Servable(s, k)
  {
    if Servable(s, k) {
      ServableIsServed(s, k);
    } else {
      forall run | InternalRun(s, run) ensures !Enabled(After(s, run), Wake(k)) {
        UnservableForRun(s, k, run);
      }
    }
  }

  /** In every reachable state a wait in progress at site k can still be served, without another
      call, exactly when a token has been given or matched there, or its request stands in the
      register and a token is before the comparison at k or there are more free tokens than
      standing requests on the manager's way from the current site to k. */
  lemma ServedExactlyWhen(s: State, run: seq<Label>, k: nat)
    requires Init(s) && Runs(s, run) && k < |s.sites|
    ensures |After(s, run).sites| == |s.sites|
    ensures CanServe(After(s, run), k) <==> Servable(After(s, run), k)
  {
    InitHonest(s);
    RunKeepsHonest(s, run);
    RunConserves(s, run);
    ServedExactlyFrom(After(s, run), k);
  }

  lemma SumOfTwo(xs: seq<nat>)
    requires |xs| == 2
    ensures Sum(xs) == xs[0] + xs[1]
  {
    var tail := xs[1..];
    assert Sum(tail) == tail[0] + Sum(tail[1..]) && tail[1..] == [];
  }

  // An application waits, and at its site there is at most a token about to be compared.
  predicate OneWaits(x: Site) {
    && x.queue == 0 && !x.child && x.down == 0 && (x.parent.Empty? || x.parent.Received?)
    && x.given == 0 && x.back == 0 && !x.sender && x.up == 0 && !x.father
    && x.register.Own? && x.asking == 1 && x.woken == 0 && x.leaving == 0
  }

  // Two sites wait, and the only token is about to be compared at the second.
  ghost predicate TwoWaitForOne(s: State) {
    && s.releases == 0 && s.current < |s.sites| == 2
    && OneWaits(s.sites[0]) && s.sites[0].parent.Empty?
    && OneWaits(s.sites[1]) && s.sites[1].parent.Received?
  }

  lemma OneIsLeft(s: State)
    requires TwoWaitForOne(s)
    ensures Total(s) == 1
  {
    SumOfTwo(Each(s.sites, Tokens));
  }

  lemma FirstIsOutbid(s: State)
    requires TwoWaitForOne(s)
    ensures !Servable(s, 0)
  {
    SumOfTwo(Spares(s, 0));
  }

  lemma SecondIsNext(s: State)
    requires TwoWaitForOne(s)
    ensures Honest(s) && Servable(s, 1)
  {
    assert Pre(s.sites[1]) == 1;
  }

  // Both ask, and the manager passes the only unit to the second.
  lemma TwoAsk(s: State) returns (t: State)
    requires Init(s) && s.releases == 1 && |s.sites| == 2
    ensures Reachable(s, t) && t.releases == 0 && |t.sites| == 2 && t.current == 1
    ensures OneWaits(t.sites[0]) && t.sites[0].parent.Empty?
    ensures t.sites[1].queue == 1 && OneWaits(t.sites[1].(queue := 0)) && t.sites[1].parent.Empty?
  {
    ReachSelf(s);
    ReachOn(s, s, Ask(0));
    var a := Apply(s, Ask(0));
    ReachOn(s, a, Ask(1));
    var b := Apply(a, Ask(1));
    ReachOn(s, b, Pass(1));
    t := Apply(b, Pass(1));
  }

  lemma TwoComeToWait(s: State) returns (t: State)
    requires Init(s) && s.releases == 1 && |s.sites| == 2
    ensures Reachable(s, t) && TwoWaitForOne(t)
  {
    var c := TwoAsk(s);
    ReachOn(s, c, Pull(1));
    var d := Apply(c, Pull(1));
    ReachOn(s, d, SendDown(1));
    var e := Apply(d, SendDown(1));
    ReachOn(s, e, ReceiveDown(1));
    t := Apply(e, ReceiveDown(1));
  }

  /** That a token is left is not enough. From a value of one, two sites come to wait while the only
      token is about to be compared at the second: the first cannot be served without another
      signal. */
  lemma TokenLeftIsNotEnough(s: State) returns (t: State)
    requires Init(s) && s.releases == 1 && |s.sites| == 2
    ensures Reachable(s, t) && |t.sites| == 2 && Total(t) == 1
    ensures t.sites[0].asking == 1 && t.sites[0].register.Own? && !CanServe(t, 0) && CanServe(t, 1)
  {
    t := TwoComeToWait(s);
    OneIsLeft(t);
    FirstIsOutbid(t);
    SecondIsNext(t);
    ServedExactlyFrom(t, 0);
    ServedExactlyFrom(t, 1);
  }

  // A request that was overwritten, with nothing given or matched for it.
  ghost predicate Forgotten(s: State, k: nat) {
    k < |s.sites| && s.sites[k].given == 0 && !s.sites[k].parent.Matched? && !s.sites[k].register.Own?
  }

  /** Whatever the others do, signals included, a wait whose request was overwritten is not served
      until another wait at the same site writes the request again. */
  lemma {:induction false} ForgottenUntilAskedAgain(s: State, k: nat, run: seq<Label>)
    requires Forgotten(s, k) && Runs(s, run) && Ask(k) !in run
    ensures Forgotten(After(s, run), k) && Wake(k) !in run
    decreases |run|
  {
    if run != [] {
      assert run[0] != Ask(k);
      assert Forgotten(Apply(s, run[0]), k);
      ForgottenUntilAskedAgain(Apply(s, run[0]), k, run[1..]);
    }
  }

  // ---------------------------------------------------------------- what the calls of others do

  // A call by which the register of site k stops naming this semaphore: a signal from the site
  // clears it, another resource of the site writes it.
  predicate TakesRegister(l: Label, k: nat) {
    l.k == k && (l.StartSignal? || l.Disturb?)
  }

  lemma RegisterTaken(s: State, k: nat, l: Label)
    requires k < |s.sites| && Enabled(s, l) && TakesRegister(l, k)
    ensures Servable(Apply(s, l), k) <==>
      s.sites[k].asking > 0 && (s.sites[k].given > 0 || s.sites[k].parent.Matched?)
  {
  }

  /** In every reachable state a signal from the site of a wait takes the wait's request out of the
      register: the wait can be served after it, without another call, exactly when a token has
      been given or matched for it, though the signal itself brings a token. The same goes for a
      call of another resource of the site. */
  lemma OwnCallForgets(s: State, run: seq<Label>, k: nat, l: Label)
    requires Init(s) && Runs(s, run) && k < |s.sites|
    requires Enabled(After(s, run), l) && TakesRegister(l, k)
    ensures var t := After(s, run);
      && |t.sites| == |s.sites|
      && (CanServe(Apply(t, l), k) <==>
            t.sites[k].asking > 0 && (t.sites[k].given > 0 || t.sites[k].parent.Matched?))
  {
    InitHonest(s);
    RunKeepsHonest(s, run);
    RunConserves(s, run);
    var t := After(s, run);
    StepKeepsHonest(t, l);
    ServedExactlyFrom(Apply(t, l), k);
    RegisterTaken(t, k, l);
  }

  // A call at another site than k, other than a wait.
  predicate FromElsewhere(l: Label, k: nat) {
    l.k != k && (l.StartSignal? || l.Disturb?)
  }

  // A site whose register is cleared keeps at most as many tokens to itself as before.
  lemma ReleasedSpares(s: State, l: Label)
    requires Enabled(s, l) && (l.StartSignal? || l.Disturb?)
    ensures Tolled(Moved(s, l)) <= Tolled(s.sites[l.k])
    ensures Spare(Moved(s, l)) >= Spare(s.sites[l.k]) + One(l.StartSignal?)
  {
  }

  lemma ElsewhereLeavesMore(s: State, k: nat, l: Label)
    requires Enabled(s, l) && FromElsewhere(l, k) && k < |s.sites|
    ensures var t := Apply(s, l);
      && |t.sites| == |s.sites| && t.current == s.current && t.sites[k] == s.sites[k]
      && Free(t, k) >= Free(s, k) + One(l.StartSignal?) && Toll(t, k) <= Toll(s, k)
  {
    OneSiteChanges(s, l, k);
    ReleasedSpares(s, l);
  }

  /** A signal from another site never takes its service from a wait, and where no standing request
      comes before it on the manager's way it brings it: in every reachable state. */
  lemma SignalElsewhereServes(s: State, run: seq<Label>, k: nat, j: nat)
    requires Init(s) && Runs(s, run) && k < |s.sites| && j < |s.sites| && j != k
    ensures var t := After(s, run);
      && |t.sites| == |s.sites| && t.current < |t.sites|
      && (CanServe(t, k) ==> CanServe(Apply(t, StartSignal(j)), k))
      && (t.sites[k].asking > 0 && t.sites[k].register.Own? && Toll(t, k) == 0 ==>
            CanServe(Apply(t, StartSignal(j)), k))
  {
    InitHonest(s);
    RunKeepsHonest(s, run);
    RunConserves(s, run);
    SignalElsewhereFrom(After(s, run), k, j);
  }

  lemma SignalElsewhereFrom(t: State, k: nat, j: nat)
    requires Honest(t) && k < |t.sites| && j < |t.sites| && j != k
    ensures CanServe(t, k) ==> CanServe(Apply(t, StartSignal(j)), k)
    ensures t.sites[k].asking > 0 && t.sites[k].register.Own? && Toll(t, k) == 0 ==>
      CanServe(Apply(t, StartSignal(j)), k)
  {
    StepKeepsHonest(t, StartSignal(j));
    ElsewhereLeavesMore(t, k, StartSignal(j));
    ServedExactlyFrom(t, k);
    ServedExactlyFrom(Apply(t, StartSignal(j)), k);
  }

  /** A site that signals while one of its applications waits forgets that wait: with a single site
      and a value of one the application is not let through, whatever follows, until some
      application of the site asks again. */
  lemma SignalForgetsOwnWait(s: State) returns (t: State)
    requires Init(s) && s.releases == 1 && |s.sites| == 1
    ensures Enabled(s, Ask(0)) && Enabled(Apply(s, Ask(0)), StartSignal(0))
    ensures t == Apply(Apply(s, Ask(0)), StartSignal(0)) && Reachable(s, t)
    ensures Forgotten(t, 0) && t.sites[0].asking == 1 && t.releases == 1 && t.sites[0].leaving == 1
    ensures forall run :: Runs(t, run) && Ask(0) !in run ==> Wake(0) !in run
  {
    ReachSelf(s);
    ReachOn(s, s, Ask(0));
    var a := Apply(s, Ask(0));
    ReachOn(s, a, StartSignal(0));
    t := Apply(a, StartSignal(0));
    forall run | Runs(t, run) && Ask(0) !in run ensures Wake(0) !in run {
      ForgottenUntilAskedAgain(t, 0, run);
    }
  }
}
