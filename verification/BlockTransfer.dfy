/**
 The two ends of a token socket: the handler at the broker and the communicator of the
 client, sending and receiving a group's memory block by block.
 */
module BlockTransfer {
  import opened Bytes
  import opened Blocks
  import opened Reception

  // A connected stream socket. How much each call moves is up to `pace`.
  class Socket {
    var incoming: seq<byte>
    var outgoing: seq<byte>
    const pace: nat -> nat
    var calls: nat

    constructor (incoming: seq<byte>, pace: nat -> nat)
      ensures this.incoming == incoming && outgoing == []
    {
      this.incoming, outgoing, this.pace, calls := incoming, [], pace, 0;
    }

    /** Some of the bytes to come, at most `most`; none exactly when the stream has ended. */
    method Receive(most: nat) returns (piece: seq<byte>)
      requires most >= 1
      modifies this`incoming, this`calls
      ensures old(incoming) == piece + incoming && calls == old(calls) + 1
      ensures |piece| == Taken(pace, old(calls), Least(most, |old(incoming)|))
    {
      var n := Taken(pace, calls, Least(most, |incoming|));
      piece, incoming, calls := incoming[..n], incoming[n..], calls + 1;
    }

    method Send(bytes: seq<byte>) returns (n: nat)
      requires bytes != []
      modifies this`outgoing, this`calls
      ensures 1 <= n <= |bytes| && outgoing == old(outgoing) + bytes[..n]
    {
      n := Taken(pace, calls, |bytes|);
      outgoing, calls := outgoing + bytes[..n], calls + 1;
    }

    method SendWhole(bytes: seq<byte>)
      modifies this`outgoing, this`calls
      ensures outgoing == old(outgoing) + bytes && calls == old(calls) + 1
    {
      outgoing, calls := outgoing + bytes, calls + 1;
    }
  }

  // A message buffer with the request it starts with.
  class Message {
    const f: Shape
    const bytes: array<byte>

    ghost predicate Valid() {
      Proper(f) && bytes.Length == Length(f)
    }

    // `initial` is what the memory of the buffer happens to hold.
    constructor (f: Shape, initial: seq<byte>)
      requires Proper(f) && |initial| == Length(f)
      ensures Valid() && this.f == f && fresh(bytes) && bytes[..] == initial
    {
      this.f := f;
      bytes := new byte[|initial|](k requires 0 <= k < |initial| => initial[k]);
    }

    function Request(): (r: seq<byte>)
      requires Valid()
      reads bytes
      ensures |r| == f.request
    {
      bytes[..f.request]
    }

    // Copies the part of a memory that starts at `at` into the data, as far as there is any.
    method Load(memory: array<byte>, at: nat)
      requires Valid() && memory != bytes && at <= memory.Length
      modifies bytes
      ensures bytes[..f.header] == old(bytes[..f.header])
      ensures var n := Least(memory.Length - at, f.data);
        bytes[f.header..] == memory[at..at + n] + old(bytes[f.header..])[n..]
    {
      var n := Least(memory.Length - at, f.data);
      var h := f.header;
      forall k | h <= k < h + n {
        bytes[k] := memory[at + k - h];
      }
    }

    // Copies the data into a memory from `at` on, as far as it goes.
    method Store(memory: array<byte>, at: nat)
      requires Valid() && memory != bytes && at <= memory.Length
      modifies memory
      ensures var n := Least(memory.Length - at, f.data);
        memory[..] == old(memory[..at]) + bytes[f.header..f.header + n] + old(memory[at + n..])
    {
      var n := Least(memory.Length - at, f.data);
      forall k | at <= k < at + n {
        memory[k] := bytes[f.header + k - at];
      }
    }

    // Stores a block behind what has been collected.
    method StoreBehind(memory: array<byte>, at: nat, ghost got: seq<byte>) returns (ghost now: seq<byte>)
      requires Valid() && memory != bytes && at == |got| && got <= memory[..]
      modifies memory
      ensures now == got + bytes[f.header..f.header + Least(memory.Length - at, f.data)] && now <= memory[..]
    {
      Store(memory, at);
      now := memory[..at + Least(memory.Length - at, f.data)];
    }

    // One read: what arrives is written from `cant` on.
    method Read(socket: Socket, cant: nat) returns (n: nat)
      requires Valid() && cant < bytes.Length
      modifies bytes, socket`incoming, socket`calls
      ensures n == Taken(socket.pace, old(socket.calls), Least(bytes.Length - cant, |old(socket.incoming)|))
      ensures socket.calls == old(socket.calls) + 1 && socket.incoming == old(socket.incoming)[n..]
      ensures bytes[..] == old(bytes[..cant]) + old(socket.incoming)[..n] + old(bytes[cant + n..])
    {
      var piece := socket.Receive(bytes.Length - cant);
      n := |piece|;
      forall k | cant <= k < cant + n {
        bytes[k] := piece[k - cant];
      }
    }

    // One read of a message of which `cant` bytes have arrived.
    method ReadOn(socket: Socket, cant: nat, ghost before: seq<byte>, ghost all: seq<byte>) returns (n: nat)
      requires Valid() && cant < bytes.Length == |before| && cant <= |all|
      requires socket.incoming == all[cant..] && IsOverlay(bytes[..], before, all, cant)
      modifies bytes, socket`incoming, socket`calls
      ensures n == Taken(socket.pace, old(socket.calls), Least(bytes.Length - cant, |all| - cant))
      ensures socket.calls == old(socket.calls) + 1
      ensures socket.incoming == all[cant + n..] && IsOverlay(bytes[..], before, all, cant + n)
    {
      ghost var was := bytes[..];
      n := Read(socket, cant);
      Overlaid(was, bytes[..], before, all, cant, n);
    }

    /** Reads into the buffer until it is full or the stream ends. */
    method FillUp(socket: Socket) returns (closed: bool)
      requires Valid()
      modifies bytes, socket`incoming, socket`calls
      ensures !closed ==> old(socket.incoming) == bytes[..] + socket.incoming
      ensures closed <==> |old(socket.incoming)| < Length(f)
    {
      var cant := 0;
      ghost var before := bytes[..];
      ghost var all := socket.incoming;
      while cant < bytes.Length
        invariant cant <= bytes.Length && cant <= |all| && socket.incoming == all[cant..]
        invariant IsOverlay(bytes[..], before, all, cant)
        decreases bytes.Length - cant
      {
        var n := ReadOn(socket, cant, before, all);
        if n == 0 {
          return true;
        }
        cant := cant + n;
      }
      FullOverlay(bytes[..], before, all, cant);
      return false;
    }

    // Sends the whole buffer, in as many pieces as the socket wants.
    method Flush(socket: Socket)
      requires Valid()
      modifies socket`outgoing, socket`calls
      ensures socket.outgoing == old(socket.outgoing) + bytes[..]
    {
      var enviados := 0;
      while enviados < bytes.Length
        invariant enviados <= bytes.Length && socket.outgoing == old(socket.outgoing) + bytes[..enviados]
      {
        var n := socket.Send(bytes[enviados..]);
        assert bytes[enviados..][..n] == bytes[enviados..enviados + n];
        assert bytes[..enviados] + bytes[enviados..enviados + n] == bytes[..enviados + n];
        enviados := enviados + n;
      }
      assert bytes[..enviados] == bytes[..];
    }

    // One read, the look at the request, and what it means for the outcome.
    method FillOn(socket: Socket, cant: nat, leave: seq<byte>, ghost before: seq<byte>, ghost all: seq<byte>, ghost o: Outcome)
      returns (n: nat, stop: bool)
      requires Valid() && cant < bytes.Length == |before| && cant <= |all|
      requires socket.incoming == all[cant..] && IsOverlay(bytes[..], before, all, cant)
      requires o == Reading(before[..f.request], all, cant, Length(f), leave, socket.pace, socket.calls)
      modifies bytes, socket`incoming, socket`calls
      ensures cant + n <= bytes.Length && cant + n <= |all|
      ensures socket.incoming == all[cant + n..] && IsOverlay(bytes[..], before, all, cant + n)
      ensures if stop then o.Left? else if n == 0 then o.Ended?
              else o == Reading(before[..f.request], all, cant + n, Length(f), leave, socket.pace, socket.calls)
    {
      n := ReadOn(socket, cant, before, all);
      RequestIsMix(bytes[..], before, all, cant + n, f.request);
      stop := Request() == leave;
    }

    /** Reads into the buffer until it is full, the stream ends, or the request, made of the bytes
        read so far and the rest of what was there before, is `leave`. */
    method Fill(socket: Socket, leave: seq<byte>) returns (ok: bool)
      requires Valid()
      modifies bytes, socket`incoming, socket`calls
      ensures var o := Reading(old(Request()), old(socket.incoming), 0, Length(f), leave, socket.pace, old(socket.calls));
        if ok then o == Complete(socket.calls, Request()) else !o.Complete?
      ensures ok ==> old(socket.incoming) == bytes[..] + socket.incoming
    {
      var cant := 0;
      ghost var before := bytes[..];
      ghost var all := socket.incoming;
      ghost var o := Reading(before[..f.request], all, 0, Length(f), leave, socket.pace, socket.calls);
      assert Request() == before[..f.request];
      while cant < bytes.Length
        invariant cant <= bytes.Length && cant <= |all| && socket.incoming == all[cant..]
        invariant IsOverlay(bytes[..], before, all, cant)
        invariant o == Reading(before[..f.request], all, cant, Length(f), leave, socket.pace, socket.calls)
        decreases bytes.Length - cant
      {
        var n, stop := FillOn(socket, cant, leave, before, all, o);
        if stop || n == 0 {
          return false;
        }
        cant := cant + n;
      }
      FullOverlay(bytes[..], before, all, cant);
      RequestOfFull(bytes[..], all, cant, f.request);
      return true;
    }
  }

  // What is in a buffer when `cant` bytes have arrived.
  ghost predicate IsOverlay(now: seq<byte>, before: seq<byte>, all: seq<byte>, cant: nat) {
    && |now| == |before| && cant <= |all| && cant <= |before|
    && (forall k :: 0 <= k < cant ==> now[k] == all[k])
    && (forall k :: cant <= k < |before| ==> now[k] == before[k])
  }

  lemma Overlaid(was: seq<byte>, now: seq<byte>, before: seq<byte>, all: seq<byte>, cant: nat, n: nat)
    requires IsOverlay(was, before, all, cant) && cant + n <= |all| && cant + n <= |before|
    requires now == was[..cant] + all[cant..][..n] + was[cant + n..]
    ensures IsOverlay(now, before, all, cant + n) && all[cant..][n..] == all[cant + n..]
  {
  }

  lemma FullOverlay(now: seq<byte>, before: seq<byte>, all: seq<byte>, cant: nat)
    requires IsOverlay(now, before, all, cant) && cant == |before|
    ensures all == now + all[cant..]
  {
    assert now == all[..cant];
  }

  lemma RequestOfFull(now: seq<byte>, all: seq<byte>, cant: nat, r: nat)
    requires cant == |now| <= |all| && r <= cant && all == now + all[cant..]
    ensures now[..r] == all[..r]
  {
  }

  lemma RequestIsMix(now: seq<byte>, before: seq<byte>, all: seq<byte>, cant: nat, r: nat)
    requires IsOverlay(now, before, all, cant) && r <= |before|
    ensures now[..r] == Mix(before[..r], all, Least(cant, r))
  {
  }

  /** The broker's end. `group` is the group's memory, `local` where a reception is collected. */
  class ClientHandler {
    const f: Shape
    const leave: seq<byte>      // the request that ends the conversation
    const blocks: nat
    const group: array<byte>
    const local: array<byte>
    const mensaje: Message
    const socket: Socket
    var members: int            // clients in the group's table
    var released: nat           // tokens given back to the manager

    ghost predicate Valid()
      reads this
    {
      && mensaje.Valid() && mensaje.f == f
      && local.Length == group.Length && blocks == BlockCount(group.Length, f)
      && local != group && mensaje.bytes != local && mensaje.bytes != group
    }

    constructor (f: Shape, leave: seq<byte>, group: array<byte>, socket: Socket, members: int, initial: seq<byte>)
      requires Proper(f) && |initial| == Length(f)
      ensures Valid() && this.group == group && this.socket == socket && this.f == f && this.leave == leave
      ensures this.members == members && released == 0 && fresh(local) && fresh(mensaje) && fresh(mensaje.bytes)
      ensures mensaje.bytes[..] == initial
    {
      this.f, this.leave, this.group, this.socket := f, leave, group, socket;
      this.members, released := members, 0;
      blocks := BlockCount(group.Length, f);
      local := new byte[group.Length](_ => 0);
      mensaje := new Message(f, initial);
    }

    // Sends the block that starts at `at`; the socket takes the message whole.
    method SendBlock(at: nat)
      requires Valid() && at <= group.Length
      modifies mensaje.bytes, socket`outgoing, socket`calls
      ensures mensaje.bytes[..f.header] == old(mensaje.bytes[..f.header])
      ensures mensaje.bytes[f.header..] == Now(group[at..], old(mensaje.bytes[f.header..]), f)
      ensures socket.outgoing == old(socket.outgoing) + (mensaje.bytes[..f.header] + mensaje.bytes[f.header..])
      ensures socket.calls == old(socket.calls) + 1
    {
      mensaje.Load(group, at);
      SliceOfRest(group[..], at, f.data);
      assert mensaje.bytes[..] == mensaje.bytes[..f.header] + mensaje.bytes[f.header..];
      socket.SendWhole(mensaje.bytes[..]);
    }

    method SendToken()
      requires Valid()
      modifies mensaje.bytes, socket`outgoing, socket`calls
      ensures socket.outgoing == old(socket.outgoing)
        + Wire(group[..], old(mensaje.bytes[..f.header]), old(mensaje.bytes[f.header..]), f)
      ensures mensaje.bytes[..f.header] == old(mensaje.bytes[..f.header]) && socket.calls == old(socket.calls) + blocks
    {
      CountIsBlocks(group.Length, f);
      ghost var header := mensaje.bytes[..f.header];
      ghost var whole := socket.outgoing + Wire(group[..], header, mensaje.bytes[f.header..], f);
      assert group[..][DataBytes(0, f)..] == group[..];
      var i := 0;
      while i < blocks
        invariant mensaje.bytes[..f.header] == header && socket.calls == old(socket.calls) + i
        invariant Sending(whole, socket.outgoing, group[..], i, blocks, header, mensaje.bytes[f.header..], f)
      {
        SendingStep(whole, socket.outgoing, group[..], i, blocks, header, mensaje.bytes[f.header..], f);
        DataBytesIs(i, f);
        assert group[..][DataBytes(i, f)..] == group[i * f.data..];
        SendBlock(i * f.data);
        i := i + 1;
      }
    }

    // What becomes of the next n messages.
    ghost function Outlook(n: nat): Outcome
      requires Valid()
      reads this, mensaje, mensaje.bytes, socket
    {
      Receiving(mensaje.Request(), socket.incoming, n, Length(f), leave, socket.pace, socket.calls)
    }

    // The first of the next n messages.
    method TakeMessage(ghost n: nat) returns (ok: bool)
      requires Valid() && n > 0
      modifies mensaje.bytes, socket`incoming, socket`calls
      ensures if ok then Outlook(n - 1) == old(Outlook(n)) else !old(Outlook(n)).Complete?
      ensures ok ==> old(socket.incoming) == mensaje.bytes[..] + socket.incoming
    {
      ghost var rest := socket.incoming;
      ok := mensaje.Fill(socket, leave);
      if ok {
        assert socket.incoming == rest[Length(f)..];
      }
    }

    // Block i of a reception of which `got` has been collected in `local`.
    method ReceiveBlock(i: nat, ghost total: seq<byte>, ghost got: seq<byte>) returns (ok: bool, ghost now: seq<byte>)
      requires Valid() && i < blocks && got <= local[..]
      requires Midway(total, socket.incoming, got, i, blocks, local.Length, f)
      modifies mensaje.bytes, local, socket`incoming, socket`calls
      ensures if ok then Outlook(blocks - i - 1) == old(Outlook(blocks - i)) else !old(Outlook(blocks - i)).Complete?
      ensures ok ==>
        && Midway(total, socket.incoming, now, i + 1, blocks, local.Length, f) && now <= local[..]
        && |old(socket.incoming)| >= Length(f) && socket.incoming == old(socket.incoming)[Length(f)..]
    {
      ghost var rest := socket.incoming;
      DataBytesIs(i, f);
      var at := i * f.data;
      ok := TakeMessage(blocks - i);
      now := got;
      if ok {
        now := StoreBlock(i, at, rest, total, got);
      }
    }

    // Stores the message that has been read as block i.
    method StoreBlock(i: nat, at: nat, ghost rest: seq<byte>, ghost total: seq<byte>, ghost got: seq<byte>)
      returns (ghost now: seq<byte>)
      requires Valid() && i < blocks && got <= local[..] && at == DataBytes(i, f)
      requires Midway(total, rest, got, i, blocks, local.Length, f) && rest == mensaje.bytes[..] + socket.incoming
      modifies local
      ensures Midway(total, socket.incoming, now, i + 1, blocks, local.Length, f) && now <= local[..]
      ensures |rest| >= Length(f) && socket.incoming == rest[Length(f)..]
    {
      StoredBlock(total, rest, mensaje.bytes[..], socket.incoming, got, i, blocks, local.Length, f);
      now := mensaje.StoreBehind(local, at, got);
    }

    // All blocks of a reception.
    method ReceiveBlocks() returns (ok: bool)
      requires Valid()
      modifies mensaje.bytes, local, socket`incoming, socket`calls
      ensures if ok then old(Outlook(blocks)) == Complete(socket.calls, mensaje.Request()) else !old(Outlook(blocks)).Complete?
      ensures ok ==>
        && MessageBytes(blocks, f) <= |old(socket.incoming)|
        && socket.incoming == old(socket.incoming)[MessageBytes(blocks, f)..]
        && local[..] == Payload(old(socket.incoming), local.Length, f)
    {
      CountIsBlocks(group.Length, f);
      ghost var all := socket.incoming;
      ghost var total := Payload(all, local.Length, f);
      MidwayStart(all, blocks, local.Length, f);
      var i := 0;
      ghost var got := [];
      while i < blocks
        invariant Past(all, socket.incoming, i, f)
        invariant Midway(total, socket.incoming, got, i, blocks, local.Length, f) && got <= local[..]
        invariant Outlook(blocks - i) == old(Outlook(blocks))
      {
        ghost var before := socket.incoming;
        ok, got := ReceiveBlock(i, total, got);
        if !ok {
          return false;
        }
        PastStep(all, before, i, f);
        i := i + 1;
      }
      assert got == local[..];
      return true;
    }

    /** A reception that is cut short, wherever it is cut, leaves the group's memory as it was; a
        complete one replaces all of it, and takes exactly the blocks from the stream. */
    method RecvToken() returns (r: nat)
      requires Valid()
      modifies mensaje.bytes, local, group, socket`incoming, socket`calls
      ensures if r != 0 then old(Outlook(blocks)) == Complete(socket.calls, mensaje.Request())
              else !old(Outlook(blocks)).Complete?
      ensures r == 0 ==> group[..] == old(group[..])
      ensures r != 0 ==>
        && r == blocks * f.data && MessageBytes(blocks, f) <= |old(socket.incoming)|
        && socket.incoming == old(socket.incoming)[MessageBytes(blocks, f)..]
        && group[..] == Payload(old(socket.incoming), group.Length, f)
    {
      forall k | 0 <= k < local.Length {
        local[k] := 0;
      }
      var ok := ReceiveBlocks();
      if !ok {
        return 0;
      }
      forall k | 0 <= k < group.Length {
        group[k] := local[k];
      }
      assert group[..] == local[..];
      CountIsBlocks(group.Length, f);
      assert blocks * f.data >= f.data;
      return blocks * f.data;
    }

    /** One turn with the token: whatever happens to the reception, the group's memory is entirely
        old or entirely what was received, the token is released exactly once, and the client is
        taken off the table exactly when the reception failed. */
    method ServeToken() returns (left: bool)
      requires Valid()
      modifies mensaje.bytes, local, group, socket`incoming, socket`outgoing, socket`calls, this`members, this`released
      ensures released == old(released) + 1 && members == old(members) - if left then 1 else 0
      ensures group[..] == if left then old(group[..]) else Payload(old(socket.incoming), group.Length, f)
      ensures socket.outgoing == old(socket.outgoing)
        + Wire(old(group[..]), old(mensaje.bytes[..f.header]), old(mensaje.bytes[f.header..]), f)
      ensures var o := Receiving(old(mensaje.Request()), old(socket.incoming), blocks, Length(f), leave,
                                 socket.pace, old(socket.calls) + blocks);
        if left then !o.Complete? else o == Complete(socket.calls, mensaje.Request())
      ensures !left ==>
        && MessageBytes(blocks, f) <= |old(socket.incoming)|
        && socket.incoming == old(socket.incoming)[MessageBytes(blocks, f)..]
    {
      ghost var header := mensaje.bytes[..f.header];
      assert mensaje.Request() == header[..f.request];
      SendToken();
      assert mensaje.Request() == mensaje.bytes[..f.header][..f.request];
      var r := RecvToken();
      left := r == 0;
      if left {
        members := members - 1;
      }
      released := released + 1;
    }

    // A turn whose reception comes out as o, and what it sends.
    method Turn(ghost o: Outcome) returns (left: bool, ghost sent: seq<byte>)
      requires Valid() && o == Receiving(mensaje.Request(), socket.incoming, blocks, Length(f), leave,
                                         socket.pace, socket.calls + blocks)
      modifies mensaje.bytes, local, group, socket`incoming, socket`outgoing, socket`calls, this`members, this`released
      ensures released == old(released) + 1 && members == old(members) - if left then 1 else 0
      ensures group[..] == if left then old(group[..]) else Payload(old(socket.incoming), group.Length, f)
      ensures if left then !o.Complete? else o == Complete(socket.calls, mensaje.Request())
      ensures !left ==>
        && MessageBytes(blocks, f) <= |old(socket.incoming)|
        && socket.incoming == old(socket.incoming)[MessageBytes(blocks, f)..]
      ensures socket.outgoing == old(socket.outgoing) + sent && IsTransfer(sent, old(group[..]), blocks, f)
    {
      sent := Wire(group[..], mensaje.bytes[..f.header], mensaje.bytes[f.header..], f);
      WireIsTransfer(group[..], mensaje.bytes[..f.header], mensaje.bytes[f.header..], f);
      left := ServeToken();
    }

    // The turn after so many others in a conversation that found `all` to come and the memory `was`.
    method NextTurn(ghost o: Outcome, ghost all: seq<byte>, ghost was: seq<byte>, ghost start: seq<byte>,
                    ghost out: seq<byte>, ghost turns: nat)
      returns (left: bool, ghost more: seq<byte>)
      requires Valid() && o == Receiving(mensaje.Request(), socket.incoming, blocks, Length(f), leave,
                                         socket.pace, socket.calls + blocks)
      requires InLoop(all, was, socket.incoming, group[..], turns, blocks, f)
      requires socket.outgoing == start + out && TurnsSent(out, was, all, turns, blocks, f)
      modifies mensaje.bytes, local, group, socket`incoming, socket`outgoing, socket`calls, this`members, this`released
      ensures released == old(released) + 1 && members == old(members) - if left then 1 else 0
      ensures if left then !o.Complete? else o == Complete(socket.calls, mensaje.Request())
      ensures left ==> group[..] == old(group[..])
      ensures !left ==>
        && MessageBytes(blocks, f) <= |old(socket.incoming)|
        && socket.incoming == old(socket.incoming)[MessageBytes(blocks, f)..]
        && InLoop(all, was, socket.incoming, group[..], turns + 1, blocks, f)
      ensures socket.outgoing == start + more && TurnsSent(more, was, all, turns + 1, blocks, f)
    {
      ghost var rest := socket.incoming;
      ghost var sent;
      SomeBytes(group.Length, f);
      left, sent := Turn(o);
      more := out + sent;
      Associative(start, out, sent);
      OneMoreTurnSent(out, sent, was, all, turns, blocks, f);
      if !left {
        InLoopStep(all, was, rest, group[..], turns, blocks, f);
      }
    }

    ghost function TurnsToCome(): nat
      requires Valid()
      reads this, mensaje, mensaje.bytes, socket
    {
      CompleteTurns(mensaje.Request(), socket.incoming, blocks, leave, socket.pace, socket.calls, f)
    }

    /** The whole conversation: turn after turn until a reception fails. The group's memory is what
        the last complete turn brought, every turn sends the memory that the turn before it left and
        releases the token once, and the client leaves once. */
    method LoopMemoria() returns (turns: nat)
      requires Valid()
      modifies mensaje.bytes, local, group, socket`incoming, socket`outgoing, socket`calls, this`members, this`released
      ensures turns == old(TurnsToCome())
      ensures released == old(released) + turns + 1 && members == old(members) - 1
      ensures group[..] == LastPayload(old(group[..]), old(socket.incoming), turns, blocks, f)
      ensures old(socket.outgoing) <= socket.outgoing
      ensures TurnsSent(socket.outgoing[|old(socket.outgoing)|..], old(group[..]), old(socket.incoming), turns + 1, blocks, f)
    {
      turns := 0;
      ghost var all, was, start, out := socket.incoming, group[..], socket.outgoing, [];
      SomeBytes(group.Length, f);
      while true
        invariant released == old(released) + turns && members == old(members)
        invariant InLoop(all, was, socket.incoming, group[..], turns, blocks, f)
        invariant turns + TurnsToCome() == old(TurnsToCome())
        invariant socket.outgoing == start + out && TurnsSent(out, was, all, turns, blocks, f)
        decreases |socket.incoming|
      {
        ghost var o := Receiving(mensaje.Request(), socket.incoming, blocks, Length(f), leave, socket.pace, socket.calls + blocks);
        var left;
        left, out := NextTurn(o, all, was, start, out, turns);
        if left {
          return;
        }
        turns := turns + 1;
      }
    }
  }

  // The state of the conversation after so many turns.
  ghost predicate InLoop(all: seq<byte>, was: seq<byte>, rest: seq<byte>, mem: seq<byte>, turns: nat, blocks: nat, f: Shape)
    requires Proper(f)
  {
    && |mem| == |was| && mem == LastPayload(was, all, turns, blocks, f)
    && rest == After(all, turns, MessageBytes(blocks, f))
  }

  lemma InLoopStep(all: seq<byte>, was: seq<byte>, rest: seq<byte>, mem: seq<byte>, turns: nat, blocks: nat, f: Shape)
    requires Proper(f) && rest == After(all, turns, MessageBytes(blocks, f))
    requires 0 < MessageBytes(blocks, f) <= |rest| && |mem| == |was| && mem == Payload(rest, |was|, f)
    ensures InLoop(all, was, rest[MessageBytes(blocks, f)..], mem, turns + 1, blocks, f)
  {
    AfterNext(all, turns, MessageBytes(blocks, f));
  }

  // What is left of a stream after so many receptions of so many bytes.
  ghost function After(stream: seq<byte>, turns: nat, bytes: nat): seq<byte>
    decreases turns
  {
    if turns == 0 then stream else if |stream| < bytes then [] else After(stream[bytes..], turns - 1, bytes)
  }

  lemma {:induction false} AfterNext(stream: seq<byte>, turns: nat, bytes: nat)
    requires bytes <= |After(stream, turns, bytes)| && bytes > 0
    ensures After(stream, turns + 1, bytes) == After(stream, turns, bytes)[bytes..]
    decreases turns
  {
    if turns > 0 {
      AfterNext(stream[bytes..], turns - 1, bytes);
    }
  }

  // One whole transfer of a memory.
  ghost predicate IsTransfer(sent: seq<byte>, mem: seq<byte>, blocks: nat, f: Shape)
    requires Proper(f)
  {
    |sent| == MessageBytes(blocks, f) && Payload(sent, |mem|, f) == mem
  }

  lemma WireIsTransfer(mem: seq<byte>, header: seq<byte>, data: seq<byte>, f: Shape)
    requires Proper(f) && |header| == f.header && |data| == f.data
    ensures IsTransfer(Wire(mem, header, data, f), mem, BlockCount(|mem|, f), f)
  {
    TransferArrives(mem, header, data, [], f);
    assert Wire(mem, header, data, f) + [] == Wire(mem, header, data, f);
  }

  // What was sent in so many turns: in each the memory that the turns before it left.
  ghost predicate TurnsSent(sent: seq<byte>, mem: seq<byte>, stream: seq<byte>, turns: nat, blocks: nat, f: Shape)
    requires Proper(f)
  {
    && |sent| == turns * MessageBytes(blocks, f)
    && forall t: nat :: t < turns ==>
         Payload(After(sent, t, MessageBytes(blocks, f)), |mem|, f) == LastPayload(mem, stream, t, blocks, f)
  }

  lemma {:induction false} AfterMore(sent: seq<byte>, more: seq<byte>, t: nat, bytes: nat)
    requires t * bytes <= |sent|
    ensures After(sent + more, t, bytes) == After(sent, t, bytes) + more
    ensures |After(sent, t, bytes)| == |sent| - t * bytes
    decreases t
  {
    if t > 0 {
      assert t * bytes == (t - 1) * bytes + bytes;
      assert (sent + more)[bytes..] == sent[bytes..] + more;
      AfterMore(sent[bytes..], more, t - 1, bytes);
    }
  }

  // A memory is taken from the first of the bytes that follow.
  lemma {:induction false} PayloadOfFirst(stream: seq<byte>, more: seq<byte>, size: nat, f: Shape)
    requires Proper(f) && MessageBytes(NeededBlocks(size, f), f) <= |stream|
    ensures Payload(stream + more, size, f) == Payload(stream, size, f)
    decreases size
  {
    if size > f.data {
      assert (stream + more)[Length(f)..] == stream[Length(f)..] + more;
      PayloadOfFirst(stream[Length(f)..], more, size - f.data, f);
    }
  }

  lemma OneTurnFits(t: nat, turns: nat, bytes: nat)
    requires t < turns
    ensures t * bytes <= t * bytes + bytes <= turns * bytes
  {
    assert turns * bytes == t * bytes + bytes + (turns - t - 1) * bytes;
  }

  // The turns that are past look the same after another.
  lemma PastTurnKept(sent: seq<byte>, more: seq<byte>, t: nat, turns: nat, bytes: nat, size: nat, f: Shape)
    requires Proper(f) && t < turns && |sent| == turns * bytes && bytes == MessageBytes(NeededBlocks(size, f), f)
    ensures Payload(After(sent + more, t, bytes), size, f) == Payload(After(sent, t, bytes), size, f)
  {
    OneTurnFits(t, turns, bytes);
    AfterMore(sent, more, t, bytes);
    PayloadOfFirst(After(sent, t, bytes), more, size, f);
  }

  lemma OneMoreTurnSent(sent: seq<byte>, more: seq<byte>, mem: seq<byte>, stream: seq<byte>, turns: nat, blocks: nat, f: Shape)
    requires Proper(f) && blocks == BlockCount(|mem|, f) && TurnsSent(sent, mem, stream, turns, blocks, f)
    requires IsTransfer(more, LastPayload(mem, stream, turns, blocks, f), blocks, f)
    requires |LastPayload(mem, stream, turns, blocks, f)| == |mem|
    ensures TurnsSent(sent + more, mem, stream, turns + 1, blocks, f)
  {
    var bytes := MessageBytes(blocks, f);
    CountIsBlocks(|mem|, f);
    assert (turns + 1) * bytes == turns * bytes + bytes;
    AfterMore(sent, more, turns, bytes);
    assert After(sent, turns, bytes) + more == more;
    forall t: nat | t < turns
      ensures Payload(After(sent + more, t, bytes), |mem|, f) == LastPayload(mem, stream, t, blocks, f) {
      PastTurnKept(sent, more, t, turns, bytes, |mem|, f);
    }
  }

  // The memory after so many complete turns.
  ghost function LastPayload(mem: seq<byte>, stream: seq<byte>, turns: nat, blocks: nat, f: Shape): seq<byte>
    requires Proper(f)
  {
    if turns == 0 then mem else Payload(After(stream, turns - 1, MessageBytes(blocks, f)), |mem|, f)
  }

  lemma SomeBytes(size: nat, f: Shape)
    requires Proper(f)
    ensures BlockCount(size, f) >= 1 && MessageBytes(BlockCount(size, f), f) >= 1
  {
    CountIsBlocks(size, f);
    BytesAscend(1, BlockCount(size, f), f);
    assert MessageBytes(1, f) == Length(f);
  }

  lemma WireStep(mem: seq<byte>, header: seq<byte>, data: seq<byte>, sent: seq<byte>, f: Shape)
    requires Proper(f) && |header| == f.header && |data| == f.data
    ensures sent + Wire(mem, header, data, f) == sent + (header + Now(mem, data, f))
      + if |mem| <= f.data then [] else Wire(mem[f.data..], header, Now(mem, data, f), f)
  {
  }

  /** The client's end; it keeps no copy of its own but works on the memory it is given. */
  class LocalBrokerComm {
    const f: Shape
    const free: seq<byte>       // the request that gives the token back
    const blocks: nat
    const memory: array<byte>
    const mensaje: Message
    const socket: Socket
    var hasToken: bool

    ghost predicate Valid()
      reads this
    {
      && mensaje.Valid() && mensaje.f == f && |free| == f.request
      && blocks == BlockCount(memory.Length, f) && mensaje.bytes != memory
    }

    constructor (f: Shape, free: seq<byte>, memory: array<byte>, socket: Socket, initial: seq<byte>)
      requires Proper(f) && |free| == f.request && |initial| == Length(f)
      ensures Valid() && this.memory == memory && this.socket == socket && this.f == f && this.free == free
      ensures !hasToken && fresh(mensaje) && fresh(mensaje.bytes)
    {
      this.f, this.free, this.memory, this.socket := f, free, memory, socket;
      blocks := BlockCount(memory.Length, f);
      hasToken := false;
      mensaje := new Message(f, initial);
    }

    method WaitBlock(i: nat, ghost total: seq<byte>, ghost got: seq<byte>)
      returns (ok: bool, ghost now: seq<byte>)
      requires Valid() && i < blocks && got <= memory[..]
      requires Midway(total, socket.incoming, got, i, blocks, memory.Length, f)
      modifies mensaje.bytes, memory, socket`incoming, socket`calls
      ensures ok <==> |old(socket.incoming)| >= Length(f)
      ensures ok ==>
        && Midway(total, socket.incoming, now, i + 1, blocks, memory.Length, f) && now <= memory[..]
        && socket.incoming == old(socket.incoming)[Length(f)..]
    {
      ghost var rest := socket.incoming;
      DataBytesIs(i, f);
      var at := i * f.data;
      var closed := mensaje.FillUp(socket);
      ok := !closed;
      now := got;
      if ok {
        now := StoreBlock(i, at, rest, total, got);
      }
    }

    // Stores the message that has been read as block i.
    method StoreBlock(i: nat, at: nat, ghost rest: seq<byte>, ghost total: seq<byte>, ghost got: seq<byte>)
      returns (ghost now: seq<byte>)
      requires Valid() && i < blocks && got <= memory[..] && at == DataBytes(i, f)
      requires Midway(total, rest, got, i, blocks, memory.Length, f) && rest == mensaje.bytes[..] + socket.incoming
      modifies memory
      ensures Midway(total, socket.incoming, now, i + 1, blocks, memory.Length, f) && now <= memory[..]
      ensures |rest| >= Length(f) && socket.incoming == rest[Length(f)..]
    {
      StoredBlock(total, rest, mensaje.bytes[..], socket.incoming, got, i, blocks, memory.Length, f);
      now := mensaje.StoreBehind(memory, at, got);
    }

    /** Waits for the token; it has it exactly when all blocks have arrived, and then the memory is
        what they carried. */
    method WaitToken() returns (ok: bool)
      requires Valid()
      modifies mensaje.bytes, memory, socket`incoming, socket`calls, this`hasToken
      ensures ok <==> |old(socket.incoming)| >= MessageBytes(blocks, f)
      ensures ok ==>
        && hasToken && memory[..] == Payload(old(socket.incoming), memory.Length, f)
        && socket.incoming == old(socket.incoming)[MessageBytes(blocks, f)..]
    {
      CountIsBlocks(memory.Length, f);
      ghost var all := socket.incoming;
      ghost var total := Payload(all, memory.Length, f);
      MidwayStart(all, blocks, memory.Length, f);
      var i := 0;
      ghost var got := [];
      while i < blocks
        invariant Past(all, socket.incoming, i, f)
        invariant Midway(total, socket.incoming, got, i, blocks, memory.Length, f) && got <= memory[..]
        invariant hasToken == old(hasToken)
      {
        BytesAscend(i + 1, blocks, f);
        ghost var before := socket.incoming;
        ok, got := WaitBlock(i, total, got);
        if !ok {
          return false;
        }
        PastStep(all, before, i, f);
        i := i + 1;
      }
      hasToken := true;
      return true;
    }

    // Sends the block that starts at `at` with the request that frees the token.
    method SendBlock(at: nat)
      requires Valid() && at <= memory.Length
      modifies mensaje.bytes, socket`outgoing, socket`calls
      ensures mensaje.bytes[..f.header] == free + old(mensaje.bytes[f.request..f.header])
      ensures mensaje.bytes[f.header..] == Now(memory[at..], old(mensaje.bytes[f.header..]), f)
      ensures socket.outgoing == old(socket.outgoing) + (mensaje.bytes[..f.header] + mensaje.bytes[f.header..])
    {
      forall k | 0 <= k < f.request {
        mensaje.bytes[k] := free[k];
      }
      assert mensaje.bytes[..f.header] == free + old(mensaje.bytes[f.request..f.header]);
      assert mensaje.bytes[f.header..] == old(mensaje.bytes[f.header..]);
      mensaje.Load(memory, at);
      SliceOfRest(memory[..], at, f.data);
      assert mensaje.bytes[..] == mensaje.bytes[..f.header] + mensaje.bytes[f.header..];
      mensaje.Flush(socket);
    }

    /** Gives the token back with the memory as it is now. */
    method SendToken()
      requires Valid()
      modifies mensaje.bytes, socket`outgoing, socket`calls, this`hasToken
      ensures !hasToken && socket.outgoing == old(socket.outgoing)
        + Wire(memory[..], free + old(mensaje.bytes[f.request..f.header]), old(mensaje.bytes[f.header..]), f)
    {
      CountIsBlocks(memory.Length, f);
      ghost var header := free + mensaje.bytes[f.request..f.header];
      ghost var whole := socket.outgoing + Wire(memory[..], header, mensaje.bytes[f.header..], f);
      assert memory[..][DataBytes(0, f)..] == memory[..];
      var i := 0;
      while i < blocks
        invariant free + mensaje.bytes[f.request..f.header] == header && (i > 0 ==> !hasToken)
        invariant Sending(whole, socket.outgoing, memory[..], i, blocks, header, mensaje.bytes[f.header..], f)
      {
        SendingStep(whole, socket.outgoing, memory[..], i, blocks, header, mensaje.bytes[f.header..], f);
        DataBytesIs(i, f);
        assert memory[..][DataBytes(i, f)..] == memory[i * f.data..];
        SendBlock(i * f.data);
        assert mensaje.bytes[f.request..f.header] == header[f.request..];
        hasToken := false;
        i := i + 1;
      }
    }
  }

  /** What one end sends the other receives: for every memory size, every pacing of the socket and
      whatever follows on the stream, the blocks are complete, carry the request of the sender
      and put together again are the memory. */
  lemma TransferArrives(mem: seq<byte>, header: seq<byte>, data: seq<byte>, rest: seq<byte>, f: Shape)
    requires Proper(f) && |header| == f.header && |data| == f.data
    ensures var stream, n := Wire(mem, header, data, f) + rest, BlockCount(|mem|, f);
      && Payload(stream, |mem|, f) == mem
      && Orderly(stream, n, header[..f.request], f)
      && MessageBytes(n, f) == |stream| - |rest| && stream[MessageBytes(n, f)..] == rest
  {
    PayloadOfWire(mem, header, data, rest, f);
    WireIsOrderly(mem, header, data, rest, f);
    WireBytes(mem, header, data, f);
    CountIsBlocks(|mem|, f);
  }

  lemma {:induction false} WireBytes(mem: seq<byte>, header: seq<byte>, data: seq<byte>, f: Shape)
    requires Proper(f) && |header| == f.header && |data| == f.data
    ensures |Wire(mem, header, data, f)| == MessageBytes(NeededBlocks(|mem|, f), f)
    decreases |mem|
  {
    if |mem| > f.data {
      WireBytes(mem[f.data..], header, Now(mem, data, f), f);
    }
  }

  lemma FirstOf(rest: seq<byte>, bytes: seq<byte>, next: seq<byte>, n: nat, f: Shape)
    requires Proper(f) && |bytes| == Length(f) && rest == bytes + next && n <= f.data
    ensures next == rest[Length(f)..] && bytes[f.header..f.header + n] == rest[f.header..f.header + n]
  {
  }

  lemma SliceOfRest(mem: seq<byte>, at: nat, d: nat)
    requires at <= |mem|
    ensures mem[at..][..Least(|mem| - at, d)] == mem[at..at + Least(|mem| - at, d)]
  {
  }

  // Bytes of the first n blocks.
  function DataBytes(n: nat, f: Shape): nat {
    if n == 0 then 0 else DataBytes(n - 1, f) + f.data
  }

  lemma {:induction false} DataBytesIs(n: nat, f: Shape)
    ensures DataBytes(n, f) == n * f.data
  {
    if n > 0 {
      DataBytesIs(n - 1, f);
      assert n * f.data == (n - 1) * f.data + f.data;
    }
  }

  // Before block i of a memory: where it starts, and how many blocks are left.
  ghost predicate OnTheWay(i: nat, blocks: nat, size: nat, f: Shape)
    requires Proper(f)
  {
    i <= blocks && (i < blocks ==> DataBytes(i, f) <= size && blocks - i == NeededBlocks(size - DataBytes(i, f), f))
  }

  lemma OnTheWayStep(i: nat, blocks: nat, size: nat, f: Shape)
    requires Proper(f) && i < blocks && OnTheWay(i, blocks, size, f)
    ensures OnTheWay(i + 1, blocks, size, f) && DataBytes(i + 1, f) == DataBytes(i, f) + f.data
    ensures i + 1 < blocks <==> size - DataBytes(i, f) > f.data
  {
  }

  // After i of the blocks.
  ghost predicate Midway(total: seq<byte>, rest: seq<byte>, got: seq<byte>, i: nat, blocks: nat, size: nat, f: Shape)
    requires Proper(f)
  {
    && OnTheWay(i, blocks, size, f)
    && |got| == (if i < blocks then DataBytes(i, f) else size)
    && total == Assembled(got, rest, i < blocks, size, f)
  }

  lemma MidwayStep(total: seq<byte>, rest: seq<byte>, got: seq<byte>, i: nat, blocks: nat, size: nat, f: Shape)
    requires Proper(f) && i < blocks && Midway(total, rest, got, i, blocks, size, f) && |rest| >= Length(f)
    ensures var more := rest[f.header..f.header + Least(size - |got|, f.data)];
      Midway(total, rest[Length(f)..], got + more, i + 1, blocks, size, f)
  {
    OnTheWayStep(i, blocks, size, f);
    CollectStep(got, rest, size, f);
  }

  // The same with the block in a message.
  lemma StoredBlock(total: seq<byte>, rest: seq<byte>, bytes: seq<byte>, next: seq<byte>, got: seq<byte>,
                    i: nat, blocks: nat, size: nat, f: Shape)
    requires Proper(f) && i < blocks && Midway(total, rest, got, i, blocks, size, f)
    requires |bytes| == Length(f) && rest == bytes + next && |got| <= size
    ensures var now := got + bytes[f.header..f.header + Least(size - |got|, f.data)];
      && Midway(total, next, now, i + 1, blocks, size, f)
      && |rest| >= Length(f) && next == rest[Length(f)..]
  {
    FirstOf(rest, bytes, next, Least(size - |got|, f.data), f);
    MidwayStep(total, rest, got, i, blocks, size, f);
  }

  // What is collected, and what the rest of the stream still adds if there is more to come.
  ghost function Assembled(got: seq<byte>, rest: seq<byte>, more: bool, size: nat, f: Shape): seq<byte>
    requires Proper(f) && |got| <= size
  {
    got + if more then Payload(rest, size - |got|, f) else []
  }

  // The next block comes off the rest of the stream.
  lemma CollectStep(got: seq<byte>, rest: seq<byte>, size: nat, f: Shape)
    requires Proper(f) && |got| <= size && |rest| >= Length(f)
    ensures var left, more := size - |got|, rest[f.header..f.header + Least(size - |got|, f.data)];
      && |got + more| == |got| + Least(left, f.data)
      && Assembled(got, rest, true, size, f) == Assembled(got + more, rest[Length(f)..], left > f.data, size, f)
  {
    var left, more := size - |got|, rest[f.header..f.header + Least(size - |got|, f.data)];
    PayloadStep(rest, left, f);
    var tail := if left > f.data then Payload(rest[Length(f)..], left - f.data, f) else [];
    assert Payload(rest, left, f) == more + tail;
    Associative(got, more, tail);
    assert Assembled(got, rest, true, size, f) == got + (more + tail);
    assert left > f.data ==> size - |got + more| == left - f.data;
    assert Assembled(got + more, rest[Length(f)..], left > f.data, size, f) == got + more + tail;
  }

  lemma MidwayStart(all: seq<byte>, blocks: nat, size: nat, f: Shape)
    requires Proper(f) && blocks == NeededBlocks(size, f)
    ensures blocks > 0 && Midway(Payload(all, size, f), all, [], 0, blocks, size, f)
  {
  }

  // What is left of a stream after i messages.
  ghost predicate Past(all: seq<byte>, rest: seq<byte>, i: nat, f: Shape) {
    MessageBytes(i, f) <= |all| && rest == all[MessageBytes(i, f)..]
  }

  lemma PastStep(all: seq<byte>, rest: seq<byte>, i: nat, f: Shape)
    requires Past(all, rest, i, f) && |rest| >= Length(f)
    ensures Past(all, rest[Length(f)..], i + 1, f)
  {
    Drop(all, MessageBytes(i, f), Length(f));
  }

  // What is still to be appended to the stream when i blocks of a memory have been sent.
  ghost predicate Sending(whole: seq<byte>, out: seq<byte>, mem: seq<byte>, i: nat, blocks: nat,
                          header: seq<byte>, data: seq<byte>, f: Shape)
    requires Proper(f) && |header| == f.header && |data| == f.data
  {
    && OnTheWay(i, blocks, |mem|, f)
    && whole == out + if i < blocks then Wire(mem[DataBytes(i, f)..], header, data, f) else []
  }

  lemma SendingStep(whole: seq<byte>, out: seq<byte>, mem: seq<byte>, i: nat, blocks: nat,
                    header: seq<byte>, data: seq<byte>, f: Shape)
    requires Proper(f) && |header| == f.header && |data| == f.data
    requires i < blocks && Sending(whole, out, mem, i, blocks, header, data, f)
    ensures var now := Now(mem[DataBytes(i, f)..], data, f);
      Sending(whole, out + (header + now), mem, i + 1, blocks, header, now, f)
  {
    var left := mem[DataBytes(i, f)..];
    OnTheWayStep(i, blocks, |mem|, f);
    WireStep(left, header, data, out, f);
    if |left| > f.data {
      assert left[f.data..] == mem[DataBytes(i + 1, f)..];
    }
  }
}
