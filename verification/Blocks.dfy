/**
 A memory on its way over a byte stream: cut into blocks of a fixed size, each in a message of
 fixed size, and put together again from pieces that arrive in any sizes.
 */
module Blocks {
  import opened Bytes
  import opened Sums

  // Bytes of a message before its data, bytes of data, and bytes of the request that starts it.
  datatype Shape = Shape(header: nat, data: nat, request: nat)

  ghost predicate Proper(f: Shape) {
    f.data >= 1 && f.request <= f.header
  }

  function Length(f: Shape): nat {
    f.header + f.data
  }

  function Least(a: nat, b: nat): nat {
    if a < b then a else b
  }

  // As `join_group` computes it.
  function BlockCount(size: nat, f: Shape): nat
    requires Proper(f)
  {
    size / f.data + if size % f.data != 0 || size == 0 || size < f.data then 1 else 0
  }

  // Blocks needed, one at a time.
  function NeededBlocks(size: nat, f: Shape): nat
    requires Proper(f)
  {
    if size <= f.data then 1 else 1 + NeededBlocks(size - f.data, f)
  }

  lemma {:induction false} CountIsBlocks(size: nat, f: Shape)
    requires Proper(f)
    ensures BlockCount(size, f) == NeededBlocks(size, f)
    decreases size
  {
    var d := f.data;
    if size < d {
      DivideBy(size, d, 0, size);
    } else if size == d {
      DivideBy(size, d, 1, 0);
    } else {
      CountIsBlocks(size - d, f);
      var q, r := (size - d) / d, (size - d) % d;
      assert (q + 1) * d == q * d + d;
      DivideBy(size, d, q + 1, r);
      if size - d < d {
        DivideBy(size - d, d, 0, size - d);
      }
    }
  }

  /** The number of blocks is the least that holds the memory, and at least one; the start of
      every block lies within the memory, so that `size - i * data` is never negative. */
  lemma BlocksCover(size: nat, f: Shape, i: nat)
    requires Proper(f) && i < BlockCount(size, f)
    ensures i * f.data <= size && (size > 0 ==> i * f.data < size)
    ensures size <= BlockCount(size, f) * f.data
    ensures BlockCount(size, f) == 1 || (BlockCount(size, f) - 1) * f.data < size
  {
    var d, c := f.data, BlockCount(size, f);
    assert size == (size / d) * d + size % d;
    if size % d == 0 && size != 0 {
      assert size / d >= 1;
      assert c == size / d || size < d;
    }
    assert i * d <= (c - 1) * d;
    assert (c - 1) * d + d == c * d;
  }

  // ---------------------------------------------------------------- what goes over the stream

  // The data of the next message for a memory, given those of the message before.
  function Now(mem: seq<byte>, data: seq<byte>, f: Shape): (now: seq<byte>)
    requires Proper(f) && |data| == f.data
    ensures |now| == f.data
  {
    var n := Least(|mem|, f.data);
    mem[..n] + data[n..]
  }

  // The messages for a memory: a short last block leaves the end of the data of the block
  // before it in place.
  function Wire(mem: seq<byte>, header: seq<byte>, data: seq<byte>, f: Shape): seq<byte>
    requires Proper(f) && |header| == f.header && |data| == f.data
    decreases |mem|
  {
    var now := Now(mem, data, f);
    if |mem| <= f.data then header + now else header + now + Wire(mem[f.data..], header, now, f)
  }

  // The memory that a stream of messages carries.
  function Payload(stream: seq<byte>, size: nat, f: Shape): seq<byte>
    requires Proper(f)
    decreases size
  {
    if |stream| < Length(f) then []
    else if size <= f.data then stream[f.header..f.header + size]
    else stream[f.header..Length(f)] + Payload(stream[Length(f)..], size - f.data, f)
  }

  lemma Slices(a: seq<byte>, b: seq<byte>, c: seq<byte>)
    ensures (a + b + c)[|a|..|a| + |b|] == b && (a + b + c)[|a| + |b|..] == c
  {
  }

  lemma PayloadStep(stream: seq<byte>, left: nat, f: Shape)
    requires Proper(f) && |stream| >= Length(f)
    ensures Payload(stream, left, f) == stream[f.header..f.header + Least(left, f.data)]
      + if left <= f.data then [] else Payload(stream[Length(f)..], left - f.data, f)
  {
  }

  lemma Associative(a: seq<byte>, b: seq<byte>, c: seq<byte>)
    ensures a + (b + c) == (a + b) + c
  {
  }

  lemma Drop(all: seq<byte>, a: nat, b: nat)
    requires a <= |all| && b <= |all[a..]|
    ensures all[a..][b..] == all[a + b..]
  {
  }

  lemma Front(a: seq<byte>, b: seq<byte>, c: seq<byte>, rest: seq<byte>)
    ensures var all := a + b + c + rest;
      && |all| >= |a| + |b| && a <= all && all[|a|..|a| + |b|] == b && all[|a| + |b|..] == c + rest
  {
    Associative(a + b, c, rest);
    Slices(a, b, c + rest);
  }

  // The first message on the stream and what follows it.
  lemma FirstMessage(mem: seq<byte>, header: seq<byte>, data: seq<byte>, rest: seq<byte>, f: Shape)
    requires Proper(f) && |header| == f.header && |data| == f.data
    ensures var stream, now := Wire(mem, header, data, f) + rest, Now(mem, data, f);
      && |stream| >= Length(f) && header <= stream && stream[f.header..Length(f)] == now
      && stream[Length(f)..] == (if |mem| <= f.data then [] else Wire(mem[f.data..], header, now, f)) + rest
  {
    var now := Now(mem, data, f);
    var tail := if |mem| <= f.data then [] else Wire(mem[f.data..], header, now, f);
    assert header + now + [] == header + now;
    assert Wire(mem, header, data, f) == header + now + tail;
    Front(header, now, tail, rest);
  }

  // The stream starts with messages whose data are the memory, block by block.
  ghost predicate Carries(stream: seq<byte>, mem: seq<byte>, f: Shape)
    requires Proper(f)
    decreases |mem|
  {
    && |stream| >= Length(f)
    && if |mem| <= f.data then stream[f.header..f.header + |mem|] == mem
       else stream[f.header..Length(f)] == mem[..f.data] && Carries(stream[Length(f)..], mem[f.data..], f)
  }

  lemma {:induction false} WireCarries(mem: seq<byte>, header: seq<byte>, data: seq<byte>, rest: seq<byte>, f: Shape)
    requires Proper(f) && |header| == f.header && |data| == f.data
    ensures Carries(Wire(mem, header, data, f) + rest, mem, f)
    decreases |mem|
  {
    var now := Now(mem, data, f);
    var stream := Wire(mem, header, data, f) + rest;
    FirstMessage(mem, header, data, rest, f);
    if |mem| <= f.data {
      assert stream[f.header..f.header + |mem|] == stream[f.header..Length(f)][..|mem|];
    } else {
      WireCarries(mem[f.data..], header, now, rest, f);
    }
  }

  lemma {:induction false} CarriedIsPayload(stream: seq<byte>, mem: seq<byte>, f: Shape)
    requires Proper(f) && Carries(stream, mem, f)
    ensures Payload(stream, |mem|, f) == mem
    decreases |mem|
  {
    if |mem| > f.data {
      CarriedIsPayload(stream[Length(f)..], mem[f.data..], f);
      assert mem == mem[..f.data] + mem[f.data..];
    }
  }

  /** Taking the messages apart gives back the memory, whatever follows on the stream. */
  lemma PayloadOfWire(mem: seq<byte>, header: seq<byte>, data: seq<byte>, rest: seq<byte>, f: Shape)
    requires Proper(f) && |header| == f.header && |data| == f.data
    ensures Payload(Wire(mem, header, data, f) + rest, |mem|, f) == mem
  {
    WireCarries(mem, header, data, rest, f);
    CarriedIsPayload(Wire(mem, header, data, f) + rest, mem, f);
  }

  // Bytes of n messages.
  function MessageBytes(n: nat, f: Shape): nat {
    if n == 0 then 0 else MessageBytes(n - 1, f) + Length(f)
  }

  lemma {:induction false} BytesAscend(i: nat, n: nat, f: Shape)
    requires i <= n
    ensures MessageBytes(i, f) <= MessageBytes(n, f)
    decreases n - i
  {
    if i < n {
      BytesAscend(i, n - 1, f);
    }
  }

  // The next n messages have arrived and each starts with the request.
  ghost predicate Orderly(stream: seq<byte>, n: nat, request: seq<byte>, f: Shape)
    decreases n
  {
    n == 0 || (|stream| >= Length(f) && request <= stream && Orderly(stream[Length(f)..], n - 1, request, f))
  }

  lemma {:induction false} WireIsOrderly(mem: seq<byte>, header: seq<byte>, data: seq<byte>, rest: seq<byte>, f: Shape)
    requires Proper(f) && |header| == f.header && |data| == f.data
    ensures Orderly(Wire(mem, header, data, f) + rest, NeededBlocks(|mem|, f), header[..f.request], f)
    decreases |mem|
  {
    FirstMessage(mem, header, data, rest, f);
    if |mem| > f.data {
      WireIsOrderly(mem[f.data..], header, Now(mem, data, f), rest, f);
    }
  }
}
