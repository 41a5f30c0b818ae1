/**
 The distributed memory of one group: the token manager, the handlers with the group's memory
 at the broker, the sockets, and at each client the communicator, the local copy and the
 application that locks it. A memory is a row of blocks, as it travels.
 */
module Coherence {
  import opened Bytes
  import opened Wakeups
  import opened ClientTables

  type Block = seq<byte>

  type Memory = seq<Block>

  datatype Handler = Pulling | Sending(i: nat) | Receiving(i: nat) | Storing | Releasing

  datatype Comm = Filling(i: nat) | Comparing | Delivering | Awaiting | Emptying(i: nat)

  // The application: outside, waiting inside `lock`, awake but still inside `lock`, holding the
  // lock, and inside `unlock`.
  datatype App = Outside | Asking | Woken | Inside | Leaving

  // What the site's register of the awaited token says, seen from this client.
  datatype Register = Clear | Own | Other

  datatype Client = Client(
    queue: nat, handler: Handler, buffer: Memory,
    down: seq<Block>, up: seq<Block>,
    comm: Comm, local: Memory, register: Register,
    given: nat, back: nat,   // the semaphores 0 and 1 of the local set
    app: App)

  // Where the one token is: an auxiliary variable that the steps never read.
  datatype Place = Manager | At(k: nat)

  datatype State = State(
    count: nat,              // blocks of the memory
    releases: nat,
    current: nat,            // the client that got the token last
    master: Memory,          // the group's memory at the broker
    clients: seq<Client>,
    last: Memory,            // auxiliary: what the last unlock left
    place: Place)

  datatype Label =
    | Pass(k: nat) | Pull(k: nat) | SendBlock(k: nat) | ReceiveBlock(k: nat) | Store(k: nat) | Release(k: nat)
    | Fill(k: nat) | Compare(k: nat) | Deliver(k: nat) | Await(k: nat) | Empty(k: nat)
    | Ask(k: nat) | Wake(k: nat) | Enter(k: nat) | Write(k: nat, j: nat, b: Block) | Depart(k: nat) | Return(k: nat)
    | Disturb(k: nat, r: Register)   // another resource of the site uses the register

  ghost predicate WellFormed(s: State) {
    && s.count >= 1 && s.current < |s.clients| && |s.master| == |s.last| == s.count
    && forall k :: 0 <= k < |s.clients| ==> Sized(s.clients[k], s.count)
  }

  ghost predicate Sized(x: Client, count: nat) {
    && |x.local| == |x.buffer| == count
    && (x.handler.Sending? || x.handler.Receiving? ==> x.handler.i < count)
    && (x.comm.Filling? || x.comm.Emptying? ==> x.comm.i < count)
  }

  ghost predicate Enabled(s: State, l: Label)
    requires WellFormed(s)
  {
    && l.k < |s.clients|
    && var x := s.clients[l.k];
       match l
       case Pass(k) => s.releases > 0 && k == NextSlot(s.current, |s.clients|)
       case Pull(_) => x.handler.Pulling? && x.queue > 0
       case SendBlock(_) => x.handler.Sending?
       case ReceiveBlock(_) => x.handler.Receiving? && x.up != []
       case Store(_) => x.handler.Storing?
       case Release(_) => x.handler.Releasing?
       case Fill(_) => x.comm.Filling? && x.down != []
       case Compare(_) => x.comm.Comparing?
       case Deliver(_) => x.comm.Delivering?
       case Await(_) => x.comm.Awaiting? && x.back > 0
       case Empty(_) => x.comm.Emptying?
       case Ask(_) => x.app.Outside?
       case Wake(_) => x.app.Asking? && x.given > 0
       case Enter(_) => x.app.Woken?
       case Write(_, j, _) => x.app.Inside? && j < s.count
       case Depart(_) => x.app.Inside?
       case Return(_) => x.app.Leaving?
       case Disturb(_, r) => !r.Own?
  }

  // What a step does to the client it belongs to.
  ghost function Moved(s: State, l: Label): Client
    requires WellFormed(s) && Enabled(s, l)
  {
    var x, c := s.clients[l.k], s.count;
    match l
    case Pass(_) => x.(queue := x.queue + 1)
    case Pull(_) => x.(queue := x.queue - 1, handler := Sending(0))
    case SendBlock(_) =>
      var i := x.handler.i;
      var sent := x.(down := x.down + [s.master[i]]);
      if i + 1 < c then sent.(handler := Sending(i + 1))
      else sent.(handler := Receiving(0), buffer := seq(c, _ => []))
    case ReceiveBlock(_) =>
      var i := x.handler.i;
      x.(buffer := x.buffer[i := x.up[0]], up := x.up[1..],
         handler := if i + 1 < c then Receiving(i + 1) else Storing)
    case Store(_) => x.(handler := Releasing)
    case Release(_) => x.(handler := Pulling)
    case Fill(_) =>
      var i := x.comm.i;
      x.(local := x.local[i := x.down[0]], down := x.down[1..], comm := if i + 1 < c then Filling(i + 1) else Comparing)
    case Compare(_) => x.(comm := if x.register.Own? then Delivering else Emptying(0))
    case Deliver(_) => x.(given := x.given + 1, comm := Awaiting)
    case Await(_) => x.(back := x.back - 1, comm := Emptying(0))
    case Empty(_) =>
      var i := x.comm.i;
      x.(up := x.up + [x.local[i]], comm := if i + 1 < c then Emptying(i + 1) else Filling(0))
    case Ask(_) => x.(register := Own, app := Asking)
    case Wake(_) => x.(given := x.given - 1, app := Woken)
    case Enter(_) => x.(register := Clear, app := Inside)
    case Write(_, j, b) => x.(local := x.local[j := b])
    case Depart(_) => x.(register := Clear, app := Leaving)
    case Return(_) => x.(back := x.back + 1, app := Outside)
    case Disturb(_, r) => x.(register := r)
  }

  ghost function Apply(s: State, l: Label): State
    requires WellFormed(s) && Enabled(s, l)
  {
    var t := s.(clients := s.clients[l.k := Moved(s, l)]);
    match l
    case Pass(k) => t.(releases := s.releases - 1, current := k, place := At(k))
    case Release(_) => t.(releases := s.releases + 1, place := Manager)
    case Store(k) => t.(master := s.clients[k].buffer)
    case Return(k) => t.(last := s.clients[k].local)
    case _ => t
  }

  ghost predicate Runs(s: State, run: seq<Label>)
    decreases |run|
  {
    run == [] || (WellFormed(s) && Enabled(s, run[0]) && Runs(Apply(s, run[0]), run[1..]))
  }

  ghost function After(s: State, run: seq<Label>): State
    requires Runs(s, run)
    decreases |run|
  {
    if run == [] then s else After(Apply(s, run[0]), run[1..])
  }

  ghost predicate Idle(x: Client) {
    && x.queue == 0 && x.handler.Pulling? && x.comm == Filling(0)
    && x.down == [] && x.up == [] && x.given == 0 && x.back == 0
  }

  ghost predicate Init(s: State) {
    && WellFormed(s) && s.releases == 1 && s.place == Manager && s.last == s.master
    && forall k :: 0 <= k < |s.clients| ==>
         Idle(s.clients[k]) && s.clients[k].app.Outside? && !s.clients[k].register.Own?
  }

  // ---------------------------------------------------------------- the invariant

  // The application waits at most for a token it does not have.
  ghost predicate Quiet(x: Client) {
    x.given == 0 && x.back == 0 && (x.app.Outside? || x.app.Asking?)
  }

  // The way out: blocks j.. of the memory are on the socket or still to be sent.
  ghost predicate Filled(x: Client, last: Memory, sent: nat)
    requires |x.local| == |last|
  {
    && x.comm.Filling? && x.up == [] && Quiet(x)
    && x.comm.i + |x.down| == sent <= |last|
    && x.down == last[x.comm.i..sent] && x.local[..x.comm.i] == last[..x.comm.i]
  }

  // The way back: `sent` blocks have left the client, `got` have been collected.
  ghost predicate Emptied(x: Client, last: Memory, got: nat, sent: nat)
    requires |x.buffer| == |last|
  {
    && x.down == [] && Quiet(x) && got + |x.up| == sent <= |last|
    && x.up == last[got..sent] && x.buffer[..got] == last[..got]
  }

  // The token has been handed to the application.
  ghost predicate Handed(x: Client, last: Memory) {
    if x.given > 0 then x.given == 1 && x.back == 0 && x.app.Asking? && x.local == last
    else if x.back > 0 then x.back == 1 && (x.app.Outside? || x.app.Asking?) && x.local == last
    else (x.app.Woken? && x.local == last) || x.app.Inside? || x.app.Leaving?
  }

  ghost predicate AtReceiving(x: Client, last: Memory, i: nat)
    requires |x.buffer| == |x.local| == |last| && i < |last|
  {
    match x.comm
    case Filling(j) =>
      if x.down != [] then i == 0 && Filled(x, last, |last|)
      else j == 0 && x.up != [] && Emptied(x, last, i, |last|)
    case Emptying(j) => x.local == last && Emptied(x, last, i, j)
    case _ =>
      && i == 0 && x.up == [] && x.down == []
      && match x.comm
         case Comparing => Quiet(x) && x.local == last
         case Delivering => Quiet(x) && x.app.Asking? && x.local == last
         case _ => Handed(x, last)
  }

  // The client with the token; the authoritative copy is where the token is.
  ghost predicate Holds(x: Client, master: Memory, last: Memory)
    requires |x.buffer| == |x.local| == |last| && Sized(x, |last|)
  {
    if x.queue > 0 then x.queue == 1 && master == last && Idle(x.(queue := 0)) && Quiet(x)
    else
      match x.handler
      case Pulling => false
      case Sending(i) => master == last && Filled(x, last, i)
      case Receiving(i) => AtReceiving(x, last, i)
      case Storing => x.comm == Filling(0) && x.down == [] && x.up == [] && Quiet(x) && x.buffer == last
      case Releasing => x.comm == Filling(0) && x.down == [] && x.up == [] && Quiet(x) && master == last
  }

  // Only a client that is inside `lock` is named in its register.
  ghost predicate Honest(x: Client) {
    x.register.Own? ==> x.app.Asking? || x.app.Woken?
  }

  ghost predicate Inv(s: State) {
    && WellFormed(s)
    && s.releases == (if s.place.Manager? then 1 else 0)
    && (s.place.Manager? ==> s.master == s.last)
    && (s.place.At? ==> s.place.k == s.current)
    && forall k :: 0 <= k < |s.clients| ==>
         && Honest(s.clients[k])
         && if s.place == At(k) then Holds(s.clients[k], s.master, s.last)
            else Idle(s.clients[k]) && Quiet(s.clients[k])
  }

  lemma InitInv(s: State)
    requires Init(s)
    ensures Inv(s)
  {
  }

  // ---------------------------------------------------------------- one step

  predicate OfHandler(l: Label) {
    l.Pull? || l.SendBlock? || l.ReceiveBlock? || l.Store?
  }

  predicate OfComm(l: Label) {
    l.Fill? || l.Compare? || l.Deliver? || l.Await? || l.Empty?
  }

  lemma OnlyTheHolderMoves(s: State, l: Label)
    requires Inv(s) && Enabled(s, l) && (OfHandler(l) || OfComm(l) || l.Release? || l.Wake? || l.Enter? || l.Depart?
                                         || l.Write? || l.Return?)
    ensures s.place == At(l.k)
  {
  }

  lemma StepStaysSized(s: State, l: Label)
    requires WellFormed(s) && Enabled(s, l)
    ensures WellFormed(Apply(s, l)) && Sized(Moved(s, l), s.count)
  {
  }

  lemma SendBlockKeeps(s: State, k: nat)
    requires Inv(s) && Enabled(s, SendBlock(k))
    ensures WellFormed(Apply(s, SendBlock(k))) && Holds(Moved(s, SendBlock(k)), s.master, s.last)
  {
    StepStaysSized(s, SendBlock(k));
  }

  lemma ReceiveBlockKeeps(s: State, k: nat)
    requires Inv(s) && Enabled(s, ReceiveBlock(k))
    ensures WellFormed(Apply(s, ReceiveBlock(k))) && Holds(Moved(s, ReceiveBlock(k)), s.master, s.last)
  {
    StepStaysSized(s, ReceiveBlock(k));
  }

  lemma HandlerKeeps(s: State, l: Label)
    requires Inv(s) && Enabled(s, l) && OfHandler(l)
    ensures WellFormed(Apply(s, l)) && Honest(Moved(s, l)) && Holds(Moved(s, l), Apply(s, l).master, s.last)
  {
    OnlyTheHolderMoves(s, l);
    StepStaysSized(s, l);
    if l.SendBlock? {
      SendBlockKeeps(s, l.k);
    } else if l.ReceiveBlock? {
      ReceiveBlockKeeps(s, l.k);
    }
  }

  lemma CommKeeps(s: State, l: Label)
    requires Inv(s) && Enabled(s, l) && OfComm(l)
    ensures WellFormed(Apply(s, l)) && Honest(Moved(s, l)) && Holds(Moved(s, l), s.master, s.last)
  {
    OnlyTheHolderMoves(s, l);
    StepStaysSized(s, l);
  }

  lemma AppKeeps(s: State, l: Label)
    requires Inv(s) && Enabled(s, l) && (l.Wake? || l.Enter? || l.Depart? || l.Write? || l.Return?)
    ensures WellFormed(Apply(s, l)) && Honest(Moved(s, l)) && Holds(Moved(s, l), s.master, Apply(s, l).last)
  {
    OnlyTheHolderMoves(s, l);
    StepStaysSized(s, l);
  }

  lemma RequestKeeps(s: State, l: Label)
    requires Inv(s) && Enabled(s, l) && (l.Ask? || l.Disturb?)
    ensures WellFormed(Apply(s, l)) && Honest(Moved(s, l))
    ensures if s.place == At(l.k) then Holds(Moved(s, l), s.master, s.last)
            else Idle(Moved(s, l)) && Quiet(Moved(s, l))
  {
    StepStaysSized(s, l);
  }

  lemma StepKeeps(s: State, l: Label)
    requires Inv(s) && Enabled(s, l)
    ensures Inv(Apply(s, l)) && |Apply(s, l).clients| == |s.clients|
  {
    StepStaysSized(s, l);
    if OfHandler(l) {
      OnlyTheHolderMoves(s, l);
      HandlerKeeps(s, l);
    } else if OfComm(l) {
      OnlyTheHolderMoves(s, l);
      CommKeeps(s, l);
    } else if l.Ask? || l.Disturb? {
      RequestKeeps(s, l);
    } else if l.Pass? || l.Release? {
    } else {
      OnlyTheHolderMoves(s, l);
      AppKeeps(s, l);
    }
  }

  lemma {:induction false} RunKeeps(s: State, run: seq<Label>)
    requires Inv(s) && Runs(s, run)
    ensures Inv(After(s, run)) && |After(s, run).clients| == |s.clients|
    decreases |run|
  {
    if run != [] {
      StepKeeps(s, run[0]);
      RunKeeps(Apply(s, run[0]), run[1..]);
    }
  }

  // ---------------------------------------------------------------- refinement

  // The simple object: one array under a mutex.
  datatype Holder = Nobody | Held(k: nat)

  datatype Shared = Shared(holder: Holder, memory: Memory)

  datatype Event = Silent | Locks(k: nat) | Writes(k: nat, j: nat, b: Block) | Unlocks(k: nat)

  predicate Allowed(a: Shared, e: Event, b: Shared) {
    match e
    case Silent => b == a
    case Locks(k) => a.holder == Nobody && b == a.(holder := Held(k))
    case Writes(k, j, x) => a.holder == Held(k) && j < |a.memory| && b == a.(memory := a.memory[j := x])
    case Unlocks(k) => a.holder == Held(k) && b == a.(holder := Nobody)
  }

  predicate Follows(a: Shared, events: seq<Event>, b: Shared)
    decreases |events|
  {
    if events == [] then a == b
    else match events[0]
      case Silent => Follows(a, events[1..], b)
      case Locks(k) => a.holder == Nobody && Follows(a.(holder := Held(k)), events[1..], b)
      case Writes(k, j, x) =>
        && a.holder == Held(k) && j < |a.memory|
        && Follows(a.(memory := a.memory[j := x]), events[1..], b)
      case Unlocks(k) => a.holder == Held(k) && Follows(a.(holder := Nobody), events[1..], b)
  }

  function EventOf(l: Label): Event {
    match l
    case Enter(k) => Locks(k)
    case Write(k, j, b) => Writes(k, j, b)
    case Return(k) => Unlocks(k)
    case _ => Silent
  }

  function EventsOf(run: seq<Label>): seq<Event> {
    if run == [] then [] else [EventOf(run[0])] + EventsOf(run[1..])
  }

  ghost predicate InSection(s: State, k: nat) {
    k < |s.clients| && (s.clients[k].app.Inside? || s.clients[k].app.Leaving?)
  }

  // Who is inside and what the memory is: the local copy of the client inside, if there is one.
  ghost function Abstract(s: State): Shared {
    if s.place.At? && InSection(s, s.place.k) then Shared(Held(s.place.k), s.clients[s.place.k].local)
    else Shared(Nobody, s.last)
  }

  lemma MutualExclusion(s: State, j: nat, k: nat)
    requires Inv(s) && InSection(s, j) && InSection(s, k)
    ensures j == k && s.place == At(k)
  {
  }

  lemma StepRefines(s: State, l: Label)
    requires Inv(s) && Enabled(s, l)
    ensures Allowed(Abstract(s), EventOf(l), Abstract(Apply(s, l)))
    ensures l.Enter? ==> s.clients[l.k].local == s.last
  {
    if OfHandler(l) || OfComm(l) || l.Release? || l.Wake? || l.Enter? || l.Depart? || l.Write? || l.Return? {
      OnlyTheHolderMoves(s, l);
    }
  }

  lemma {:induction false} RunFollows(s: State, run: seq<Label>)
    requires Inv(s) && Runs(s, run)
    ensures Follows(Abstract(s), EventsOf(run), Abstract(After(s, run)))
    decreases |run|
  {
    if run != [] {
      var t := Apply(s, run[0]);
      StepKeeps(s, run[0]);
      StepRefines(s, run[0]);
      RunFollows(t, run[1..]);
      assert EventsOf(run)[0] == EventOf(run[0]) && EventsOf(run)[1..] == EventsOf(run[1..]);
      assert After(s, run) == After(t, run[1..]);
    }
  }

  /** Every run is a run of one shared array under a mutex, and whoever is inside sees its bytes
      in the local copy. */
  lemma RefinesSharedArray(s: State, run: seq<Label>, k: nat)
    requires Init(s) && Runs(s, run)
    ensures Follows(Shared(Nobody, s.master), EventsOf(run), Abstract(After(s, run)))
    ensures InSection(After(s, run), k) ==>
              Abstract(After(s, run)) == Shared(Held(k), After(s, run).clients[k].local)
  {
    InitInv(s);
    RunFollows(s, run);
    RunKeeps(s, run);
    if InSection(After(s, run), k) {
      MutualExclusion(After(s, run), k, k);
    }
  }

  // What the last unlock of a run left, or else `first`.
  ghost function LastUnlock(s: State, run: seq<Label>, first: Memory): Memory
    requires Runs(s, run)
    decreases |run|
  {
    if run == [] then first
    else LastUnlock(Apply(s, run[0]), run[1..], if run[0].Return? then s.clients[run[0].k].local else first)
  }

  lemma {:induction false} RunsSplit(s: State, run: seq<Label>, l: Label)
    requires Runs(s, run + [l])
    ensures Runs(s, run) && WellFormed(After(s, run)) && Enabled(After(s, run), l)
    ensures After(s, run + [l]) == Apply(After(s, run), l)
    decreases |run|
  {
    assert (run + [l])[0] == if run == [] then l else run[0];
    if run != [] {
      assert (run + [l])[1..] == run[1..] + [l];
      RunsSplit(Apply(s, run[0]), run[1..], l);
    }
  }

  lemma {:induction false} LastIsLastUnlock(s: State, run: seq<Label>)
    requires Runs(s, run)
    ensures After(s, run).last == LastUnlock(s, run, s.last)
    decreases |run|
  {
    if run != [] {
      LastIsLastUnlock(Apply(s, run[0]), run[1..]);
    }
  }

  /** A client returning from `lock` sees exactly the bytes that the last `unlock` of any client
      left, or the initial ones, and nobody else is inside. */
  lemma LockSeesLastUnlock(s: State, run: seq<Label>, k: nat)
    requires Init(s) && Runs(s, run + [Enter(k)])
    ensures var t := After(s, run + [Enter(k)]);
      && k < |t.clients| && Runs(s, run)
      && t.clients[k].local == LastUnlock(s, run, s.master)
      && forall j :: InSection(t, j) ==> j == k
  {
    InitInv(s);
    RunKeeps(s, run + [Enter(k)]);
    RunsSplit(s, run, Enter(k));
    RunKeeps(s, run);
    StepRefines(After(s, run), Enter(k));
    LastIsLastUnlock(s, run);
    var t := After(s, run + [Enter(k)]);
    forall j | InSection(t, j) ensures j == k {
      MutualExclusion(t, j, k);
    }
  }

  // ---------------------------------------------------------------- progress

  // A step that moves the token on.
  ghost function NextStep(s: State): Label
    requires Inv(s)
  {
    if s.place.Manager? then Pass(NextSlot(s.current, |s.clients|))
    else
      var k := s.place.k;
      var x := s.clients[k];
      if x.queue > 0 then Pull(k)
      else if x.handler.Sending? then SendBlock(k)
      else if x.handler.Storing? then Store(k)
      else if x.handler.Releasing? then Release(k)
      else if x.up != [] then ReceiveBlock(k)
      else if x.comm.Filling? then Fill(k)
      else if x.comm.Comparing? then Compare(k)
      else if x.comm.Delivering? then Deliver(k)
      else if x.comm.Emptying? then Empty(k)
      else if x.given > 0 then Wake(k)
      else if x.back > 0 then Await(k)
      else if x.app.Woken? then Enter(k)
      else if x.app.Inside? then Depart(k)
      else Return(k)
  }

  /** The token never gets stuck, whatever other resources do to the registers: only a client
      inside its own section can keep it. */
  lemma TokenNeverStuck(s: State)
    requires Inv(s)
    ensures Enabled(s, NextStep(s)) && MovesToken(NextStep(s))
    ensures NextStep(s).Depart? ==> InSection(s, NextStep(s).k)
  {
  }

  // Steps left until the holder releases the token, when it has c blocks.
  ghost function Rank(x: Client, c: nat): nat
    requires Sized(x, c)
  {
    if x.queue > 0 then 4 * c + 14
    else
      match x.handler
      case Sending(i) => (c - i) + 2 * c + 12 + if x.comm.Filling? then c - x.comm.i else 0
      case Receiving(i) => (
        match x.comm
        case Filling(j) => if x.down != [] then (c - j) + 2 * c + 12 else (c - i) + 3
        case Comparing => 2 * c + 12
        case Delivering => 2 * c + 11
        case Awaiting =>
          2 * c + 4 + (if x.given > 0 then 6 else if x.back > 0 then 1
                       else match x.app case Woken => 5 case Inside => 4 case _ => 3)
        case Emptying(j) => (c - j) + (c - i) + 3)
      case Storing => 2
      case Releasing => 1
      case Pulling => 0
  }

  // Steps that bring the token on its way.
  predicate MovesToken(l: Label) {
    !l.Ask? && !l.Disturb? && !l.Write?
  }

  lemma HandlerRank(s: State, l: Label)
    requires Inv(s) && Enabled(s, l) && OfHandler(l)
    ensures Sized(Moved(s, l), s.count) && Rank(Moved(s, l), s.count) < Rank(s.clients[l.k], s.count)
  {
    OnlyTheHolderMoves(s, l);
    StepStaysSized(s, l);
  }

  lemma CommRank(s: State, l: Label)
    requires Inv(s) && Enabled(s, l) && OfComm(l)
    ensures Sized(Moved(s, l), s.count) && Rank(Moved(s, l), s.count) < Rank(s.clients[l.k], s.count)
  {
    OnlyTheHolderMoves(s, l);
    StepStaysSized(s, l);
  }

  lemma AppRank(s: State, l: Label)
    requires Inv(s) && Enabled(s, l) && (l.Wake? || l.Enter? || l.Depart? || l.Return?)
    ensures Sized(Moved(s, l), s.count) && Rank(Moved(s, l), s.count) < Rank(s.clients[l.k], s.count)
  {
    OnlyTheHolderMoves(s, l);
    StepStaysSized(s, l);
  }

  /** A turn of the token ends: every step that moves it brings client k nearer to releasing it,
      and no other step of any process makes the way longer. */
  lemma TurnEnds(s: State, l: Label)
    requires Inv(s) && s.place.At? && Enabled(s, l)
    ensures var t, k := Apply(s, l), s.place.k;
      && Inv(t)
      && (t.place == Manager || (t.place == s.place && k < |t.clients|
           && Rank(t.clients[k], t.count) + (if MovesToken(l) then 1 else 0) <= Rank(s.clients[k], s.count)))
  {
    StepKeeps(s, l);
    if OfHandler(l) {
      OnlyTheHolderMoves(s, l);
      HandlerRank(s, l);
    } else if OfComm(l) {
      OnlyTheHolderMoves(s, l);
      CommRank(s, l);
    } else if l.Wake? || l.Enter? || l.Depart? || l.Return? {
      OnlyTheHolderMoves(s, l);
      AppRank(s, l);
    }
  }

  // Client k is inside `lock` and the token that has come for it has not been sent back.
  ghost predicate Serving(s: State, k: nat) {
    && k < |s.clients| && s.place == At(k)
    && var x := s.clients[k];
       || x.app.Woken?
       || (x.app.Asking? && x.comm.Delivering?)
       || (x.app.Asking? && x.comm.Awaiting? && x.given > 0)
       || (x.app.Asking? && x.register.Own?
           && (x.queue > 0 || x.handler.Sending? || (x.comm.Filling? && x.down != []) || x.comm.Comparing?))
  }

  lemma StepKeepsServing(s: State, k: nat, l: Label)
    requires Inv(s) && Serving(s, k) && Enabled(s, l) && l != Enter(k) && !(l.Disturb? && l.k == k)
    ensures Serving(Apply(s, l), k)
  {
    if OfHandler(l) || OfComm(l) || l.Release? || l.Wake? || l.Enter? || l.Depart? || l.Write? || l.Return? {
      OnlyTheHolderMoves(s, l);
    }
  }

  function TokenSteps(run: seq<Label>): nat {
    if run == [] then 0 else One(MovesToken(run[0])) + TokenSteps(run[1..])
  }

  ghost predicate Undisturbed(run: seq<Label>, k: nat) {
    forall i :: 0 <= i < |run| ==> !(run[i].Disturb? && run[i].k == k)
  }

  /** When the token comes to a client whose request stands in the register and is not overwritten
      there, the token is not sent back before `lock` returns, and `lock` returns within 4c + 14
      steps that move the token. */
  lemma {:induction false} WaitingClientIsServed(s: State, k: nat, run: seq<Label>)
    requires Inv(s) && Serving(s, k) && Runs(s, run) && Undisturbed(run, k) && Enter(k) !in run
    ensures Serving(After(s, run), k)
    ensures Sized(s.clients[k], s.count) && TokenSteps(run) <= Rank(s.clients[k], s.count) <= 4 * s.count + 14
    decreases |run|
  {
    if run != [] {
      var t := Apply(s, run[0]);
      assert run[0] != Enter(k) && !(run[0].Disturb? && run[0].k == k);
      StepKeepsServing(s, k, run[0]);
      TurnEnds(s, run[0]);
      forall i | 0 <= i < |run[1..]| ensures !(run[1..][i].Disturb? && run[1..][i].k == k) {
        assert run[1..][i] == run[i + 1];
      }
      WaitingClientIsServed(t, k, run[1..]);
    }
  }

  // ---------------------------------------------------------------- who is served

  // Client k is inside `lock`, and its request stands in the register or the token is being
  // handed to it.
  ghost predicate Standing(s: State, k: nat) {
    && k < |s.clients|
    && var x := s.clients[k];
       x.app.Woken? || (x.app.Asking? && (x.register.Own? || x.given > 0 || x.comm.Delivering?))
  }

  lemma StepKeepsStanding(s: State, k: nat, l: Label)
    requires WellFormed(s) && Standing(s, k) && Enabled(s, l) && l != Enter(k) && !(l.Disturb? && l.k == k)
    ensures Standing(Apply(s, l), k)
  {
  }

  // t turns of at most n steps each.
  function Turns(t: nat, n: nat): nat {
    if t == 0 then 0 else n + Turns(t - 1, n)
  }

  lemma {:induction false} TurnsIs(t: nat, n: nat)
    ensures Turns(t, n) == t * n
  {
    if t > 0 {
      TurnsIs(t - 1, n);
      assert t * n == (t - 1) * n + n;
    }
  }

  // Steps that can move the token before `lock` returns at k.
  ghost function Distance(s: State, k: nat): nat
    requires WellFormed(s) && k < |s.clients|
  {
    if Serving(s, k) then Rank(s.clients[k], s.count)
    else (if s.place.At? && s.place.k < |s.clients| then Rank(s.clients[s.place.k], s.count) else 0)
         + Turns(Turn(s.current, k, |s.clients|), 4 * s.count + 15)
  }

  lemma RankBounded(s: State)
    requires Inv(s) && s.place.At?
    ensures Rank(s.clients[s.place.k], s.count) <= 4 * s.count + 14
  {
  }

  lemma PassComesNearer(s: State, k: nat, j: nat)
    requires Inv(s) && Standing(s, k) && Enabled(s, Pass(j))
    ensures WellFormed(Apply(s, Pass(j))) && k < |Apply(s, Pass(j)).clients|
    ensures Distance(Apply(s, Pass(j)), k) < Distance(s, k)
  {
    var t := Apply(s, Pass(j));
    StepKeeps(s, Pass(j));
    TurnShifts(s.current, |s.clients|);
    assert t.clients[j].queue > 0 && Rank(t.clients[j], t.count) == 4 * s.count + 14;
    if j == k {
      assert Serving(t, k);
    } else {
      assert !Serving(t, k);
    }
  }

  // With the token at a client, k not being served: the turn goes on, or ends at the manager.
  lemma TurnComesNearer(s: State, k: nat, l: Label)
    requires Inv(s) && k < |s.clients| && s.place.At? && !Serving(s, k) && Enabled(s, l) && !l.Pass?
    ensures Inv(Apply(s, l)) && |Apply(s, l).clients| == |s.clients|
    ensures Distance(Apply(s, l), k) + One(MovesToken(l)) <= Distance(s, k)
  {
    StepKeeps(s, l);
    TurnEnds(s, l);
  }

  lemma StepComesNearer(s: State, k: nat, l: Label)
    requires Inv(s) && Standing(s, k) && Enabled(s, l) && l != Enter(k) && !(l.Disturb? && l.k == k)
    ensures Inv(Apply(s, l)) && |Apply(s, l).clients| == |s.clients|
    ensures Distance(Apply(s, l), k) + One(MovesToken(l)) <= Distance(s, k)
  {
    StepKeeps(s, l);
    if l.Pass? {
      PassComesNearer(s, k, l.k);
    } else if Serving(s, k) {
      TurnEnds(s, l);
      StepKeepsServing(s, k, l);
    } else if s.place.At? {
      TurnComesNearer(s, k, l);
    }
  }

  lemma {:induction false} StandingOverRun(s: State, k: nat, run: seq<Label>)
    requires Inv(s) && Standing(s, k) && Runs(s, run) && Undisturbed(run, k) && Enter(k) !in run
    ensures Standing(After(s, run), k) && TokenSteps(run) <= Distance(s, k)
    decreases |run|
  {
    if run != [] {
      assert run[0] != Enter(k) && !(run[0].Disturb? && run[0].k == k);
      StepKeepsStanding(s, k, run[0]);
      StepComesNearer(s, k, run[0]);
      forall i | 0 <= i < |run[1..]| ensures !(run[1..][i].Disturb? && run[1..][i].k == k) {
        assert run[1..][i] == run[i + 1];
      }
      StandingOverRun(Apply(s, run[0]), k, run[1..]);
    }
  }

  lemma ProductAtMost(t: nat, n: nat, c: nat)
    requires t <= n
    ensures t * c <= n * c
  {
  }

  lemma DistanceBounded(s: State, k: nat)
    requires Inv(s) && k < |s.clients|
    ensures Distance(s, k) <= 4 * s.count + 14 + |s.clients| * (4 * s.count + 15)
  {
    var t := Turn(s.current, k, |s.clients|);
    TurnsIs(t, 4 * s.count + 15);
    ProductAtMost(t, |s.clients|, 4 * s.count + 15);
    if s.place.At? {
      RankBounded(s);
    }
  }

  /** `lock` returns: once a client has asked, and as long as its request is not overwritten, every
      run lets it in within n + 1 turns of the token, of at most 4c + 15 moves each, for n clients
      and c blocks, whatever the others do. */
  lemma LockReturns(s: State, k: nat, run: seq<Label>)
    requires Inv(s) && Enabled(s, Ask(k)) && Runs(Apply(s, Ask(k)), run)
    requires Undisturbed(run, k) && Enter(k) !in run
    ensures TokenSteps(run) <= 4 * s.count + 14 + |s.clients| * (4 * s.count + 15)
    ensures Standing(After(Apply(s, Ask(k)), run), k)
  {
    var t := Apply(s, Ask(k));
    StepKeeps(s, Ask(k));
    StandingOverRun(t, k, run);
    DistanceBounded(t, k);
  }

  // Client k is asleep inside `lock`, its request has been overwritten and nothing is on its way.
  ghost predicate Forgotten(s: State, k: nat) {
    && k < |s.clients|
    && var x := s.clients[k];
       x.app.Asking? && !x.register.Own? && x.given == 0 && !x.comm.Delivering?
  }

  /** A client whose request was overwritten is forgotten for ever: `lock` writes it only once. */
  lemma {:induction false} ForgottenForEver(s: State, k: nat, run: seq<Label>)
    requires Forgotten(s, k) && Runs(s, run)
    ensures Forgotten(After(s, run), k) && Enter(k) !in run
    decreases |run|
  {
    if run != [] {
      assert run[0] != Enter(k);
      assert Forgotten(Apply(s, run[0]), k);
      ForgottenForEver(Apply(s, run[0]), k, run[1..]);
    }
  }

  ghost predicate CanEnter(s: State, k: nat) {
    exists run :: Runs(s, run) && WellFormed(After(s, run)) && Enabled(After(s, run), Enter(k))
  }

  lemma EntersLater(s: State, k: nat, l: Label)
    requires WellFormed(s) && Enabled(s, l) && CanEnter(Apply(s, l), k)
    ensures CanEnter(s, k)
  {
    var t := Apply(s, l);
    var run :| Runs(t, run) && WellFormed(After(t, run)) && Enabled(After(t, run), Enter(k));
    var longer := [l] + run;
    assert longer[1..] == run;
    assert Runs(s, longer) && After(s, longer) == After(t, run);
  }

  lemma {:induction false} StandingEnters(s: State, k: nat)
    requires Inv(s) && Standing(s, k)
    ensures CanEnter(s, k)
    decreases Distance(s, k)
  {
    if s.clients[k].app.Woken? {
      var none: seq<Label> := [];
      assert Runs(s, none) && Enabled(After(s, none), Enter(k));
    } else {
      var l := NextStep(s);
      TokenNeverStuck(s);
      StepKeepsStanding(s, k, l);
      StepComesNearer(s, k, l);
      StandingEnters(Apply(s, l), k);
      EntersLater(s, k, l);
    }
  }

  /** A client inside `lock` can still enter exactly when its request stands in the register or the
      token is already being handed to it. */
  lemma EntersExactlyWhenStanding(s: State, k: nat)
    requires Inv(s) && k < |s.clients| && (s.clients[k].app.Asking? || s.clients[k].app.Woken?)
    ensures CanEnter(s, k) <==> Standing(s, k)
  {
    if Standing(s, k) {
      StandingEnters(s, k);
    } else {
      forall run | Runs(s, run) && WellFormed(After(s, run)) ensures !Enabled(After(s, run), Enter(k)) {
        ForgottenForEver(s, k, run);
      }
    }
  }

  lemma TwoSteps(s: State, a: Label, b: Label)
    requires WellFormed(s) && Enabled(s, a) && WellFormed(Apply(s, a)) && Enabled(Apply(s, a), b)
    ensures Runs(s, [a, b]) && After(s, [a, b]) == Apply(Apply(s, a), b)
  {
    var t := Apply(s, a);
    assert [a, b][1..] == [b] && [b][1..] == [];
    var u := Apply(t, b);
    assert Runs(u, []) && After(u, []) == u;
    assert Runs(t, [b]) && After(t, [b]) == u;
  }

  /** The forgotten client is reachable: it asks, and another resource of its site asks after it. */
  lemma RequestsGetForgotten(s: State, k: nat)
    requires Init(s) && k < |s.clients|
    ensures Runs(s, [Ask(k), Disturb(k, Other)]) && Forgotten(After(s, [Ask(k), Disturb(k, Other)]), k)
  {
    TwoSteps(s, Ask(k), Disturb(k, Other));
  }
}
