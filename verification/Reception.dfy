/**
 Receiving messages piece by piece into a buffer that still holds an earlier message. After
 every piece the request at the start of the buffer is looked at: a mixture of new and old bytes
 may be taken for the request to leave.
 */
module Reception {
  import opened Bytes
  import opened Blocks

  // What a call of the socket moves when it can move at most `most` bytes.
  function Taken(pace: nat -> nat, calls: nat, most: nat): (n: nat)
    ensures n <= most && (n == 0 <==> most == 0)
  {
    if most == 0 then 0 else if 1 <= pace(calls) <= most then pace(calls) else most
  }

  // Complete, after so many calls and with this request in the buffer; given up on the request to
  // leave; or the stream has ended.
  datatype Outcome = Complete(calls: nat, request: seq<byte>) | Left | Ended

  // The first p bytes of a stream over what was there before.
  ghost function Mix(before: seq<byte>, stream: seq<byte>, p: nat): seq<byte>
    requires p <= |before| && p <= |stream|
  {
    stream[..p] + before[p..]
  }

  // Reading one message of `size` bytes of which `cant` have arrived.
  ghost function Reading(before: seq<byte>, stream: seq<byte>, cant: nat, size: nat, leave: seq<byte>,
                         pace: nat -> nat, calls: nat): (o: Outcome)
    requires cant <= |stream| && cant <= size && |before| <= size
    ensures o.Complete? ==> size <= |stream| && o.request == stream[..|before|]
    ensures o.Ended? ==> |stream| < size
    decreases size - cant
  {
    if cant == size then Complete(calls, stream[..|before|])
    else
      var n := Taken(pace, calls, Least(size - cant, |stream| - cant));
      if Mix(before, stream, Least(cant + n, |before|)) == leave then Left
      else if n == 0 then Ended
      else Reading(before, stream, cant + n, size, leave, pace, calls + 1)
  }

  // Reading n messages, each over the request of the one before.
  ghost function Receiving(before: seq<byte>, stream: seq<byte>, n: nat, size: nat, leave: seq<byte>,
                           pace: nat -> nat, calls: nat): (o: Outcome)
    requires |before| <= size
    ensures o.Complete? ==> |o.request| == |before|
    decreases n
  {
    if n == 0 then Complete(calls, before)
    else match Reading(before, stream, 0, size, leave, pace, calls)
      case Complete(c, request) => Receiving(request, stream[size..], n - 1, size, leave, pace, c)
      case o => o
  }

  // No piece of a request r that arrives over `before` spells the request to leave.
  ghost predicate NeverMisread(before: seq<byte>, r: seq<byte>, leave: seq<byte>)
    requires |before| == |r|
  {
    r != leave && forall p: nat :: 1 <= p <= |r| ==> Mix(before, r, p) != leave
  }

  lemma MixOfPrefix(before: seq<byte>, stream: seq<byte>, r: seq<byte>, p: nat)
    requires |before| == |r| && r <= stream && p <= |r|
    ensures Mix(before, stream, p) == Mix(before, r, p)
  {
    assert stream[..p] == r[..p];
  }

  lemma {:induction false} ReadingCompletes(before: seq<byte>, stream: seq<byte>, r: seq<byte>, cant: nat, size: nat,
                                            leave: seq<byte>, pace: nat -> nat, calls: nat)
    requires |before| == |r| <= size <= |stream| && cant <= size && r <= stream && NeverMisread(before, r, leave)
    ensures Reading(before, stream, cant, size, leave, pace, calls).Complete?
    decreases size - cant
  {
    if cant < size {
      var n := Taken(pace, calls, Least(size - cant, |stream| - cant));
      var p := Least(cant + n, |before|);
      MixOfPrefix(before, stream, r, p);
      assert p == 0 ==> Mix(before, r, p) == r;
      ReadingCompletes(before, stream, r, cant + n, size, leave, pace, calls + 1);
    }
  }

  lemma RepeatedIsNeverMisread(r: seq<byte>, leave: seq<byte>)
    requires r != leave
    ensures NeverMisread(r, r, leave)
  {
    forall p: nat | 1 <= p <= |r| ensures Mix(r, r, p) != leave {
      assert Mix(r, r, p) == r;
    }
  }

  lemma {:induction false} ReceivingCompletes(before: seq<byte>, stream: seq<byte>, n: nat, r: seq<byte>,
                                              leave: seq<byte>, pace: nat -> nat, calls: nat, f: Shape)
    requires Proper(f) && |before| == |r| == f.request
    requires Orderly(stream, n, r, f) && NeverMisread(before, r, leave)
    ensures var o := Receiving(before, stream, n, Length(f), leave, pace, calls);
      o.Complete? && (n > 0 ==> o.request == r)
    decreases n
  {
    if n > 0 {
      ReadingCompletes(before, stream, r, 0, Length(f), leave, pace, calls);
      var o := Reading(before, stream, 0, Length(f), leave, pace, calls);
      assert o.request == r;
      RepeatedIsNeverMisread(r, leave);
      ReceivingCompletes(r, stream[Length(f)..], n - 1, r, leave, pace, o.calls, f);
      if n == 1 {
        assert Receiving(r, stream[Length(f)..], 0, Length(f), leave, pace, o.calls).request == r;
      }
    }
  }

  function Always(p: nat): nat -> nat {
    _ => p
  }

  // A mixture that spells `leave` is met when the socket moves just so many bytes.
  lemma MisreadingLeaves(before: seq<byte>, stream: seq<byte>, r: seq<byte>, p: nat, size: nat, leave: seq<byte>)
    requires |before| == |r| <= size <= |stream| && size >= 1 && r <= stream && p <= |r|
    requires (p >= 1 || r == []) && Mix(before, r, p) == leave
    ensures Reading(before, stream, 0, size, leave, Always(p), 0) == Left
  {
    MixOfPrefix(before, stream, r, p);
    var n := Taken(Always(p), 0, Least(size, |stream|));
    assert r != [] ==> n == p;
    assert Least(n, |before|) == p;
  }

  // Every way of cutting the stream into pieces lets the reception complete.
  ghost predicate CompletesAnyhow(before: seq<byte>, stream: seq<byte>, n: nat, leave: seq<byte>, f: Shape)
    requires |before| <= Length(f)
  {
    forall pace: nat -> nat, calls: nat :: Receiving(before, stream, n, Length(f), leave, pace, calls).Complete?
  }

  /** The reception of whole messages with request r over a buffer that starts with `before` is
      completed, however the stream is cut into pieces, if and only if r does not ask to leave and
      no first bytes of r over the rest of `before` seem to. */
  lemma CompletesExactlyWhenNeverMisread(before: seq<byte>, stream: seq<byte>, n: nat, r: seq<byte>,
                                         leave: seq<byte>, f: Shape)
    requires Proper(f) && |before| == |r| == f.request && n >= 1 && Orderly(stream, n, r, f)
    ensures CompletesAnyhow(before, stream, n, leave, f) <==> NeverMisread(before, r, leave)
  {
    if NeverMisread(before, r, leave) {
      forall pace: nat -> nat, calls: nat
        ensures Receiving(before, stream, n, Length(f), leave, pace, calls).Complete? {
        ReceivingCompletes(before, stream, n, r, leave, pace, calls, f);
      }
    } else {
      var p: nat;
      if r == leave {
        p := |r|;
        assert Mix(before, r, p) == r;
      } else {
        p :| 1 <= p <= |r| && Mix(before, r, p) == leave;
      }
      MisreadingLeaves(before, stream, r, p, Length(f), leave);
      assert !Receiving(before, stream, n, Length(f), leave, Always(p), 0).Complete?;
    }
  }

  // The stream holds m receptions of n messages with request r, one after the other.
  ghost predicate OrderlyTurns(stream: seq<byte>, m: nat, n: nat, r: seq<byte>, f: Shape)
    decreases m
  {
    m == 0 || (Orderly(stream, n, r, f) && MessageBytes(n, f) <= |stream|
               && OrderlyTurns(stream[MessageBytes(n, f)..], m - 1, n, r, f))
  }

  // Complete receptions of `blocks` messages each, with a sending of as many calls before each, up
  // to the first that is not completed.
  ghost function CompleteTurns(before: seq<byte>, stream: seq<byte>, blocks: nat, leave: seq<byte>,
                               pace: nat -> nat, calls: nat, f: Shape): nat
    requires |before| <= Length(f)
    decreases |stream|
  {
    var bytes := MessageBytes(blocks, f);
    var o := Receiving(before, stream, blocks, Length(f), leave, pace, calls + blocks);
    if o.Complete? && 0 < bytes <= |stream|
    then 1 + CompleteTurns(o.request, stream[bytes..], blocks, leave, pace, o.calls, f)
    else 0
  }

  /** A stream that holds m receptions with request r gives at least m complete turns, from whatever
      the buffer holds at first and however the stream is cut into pieces, as long as r and its
      first bytes over that do not ask to leave. */
  lemma {:induction false} OrderlyTurnsComplete(before: seq<byte>, stream: seq<byte>, m: nat, blocks: nat, r: seq<byte>,
                                                leave: seq<byte>, pace: nat -> nat, calls: nat, f: Shape)
    requires Proper(f) && |before| == |r| == f.request && blocks > 0
    requires OrderlyTurns(stream, m, blocks, r, f) && NeverMisread(before, r, leave)
    ensures CompleteTurns(before, stream, blocks, leave, pace, calls, f) >= m
    decreases m
  {
    if m > 0 {
      ReceivingCompletes(before, stream, blocks, r, leave, pace, calls + blocks, f);
      var o := Receiving(before, stream, blocks, Length(f), leave, pace, calls + blocks);
      RepeatedIsNeverMisread(r, leave);
      BytesAscend(1, blocks, f);
      assert MessageBytes(1, f) == Length(f);
      OrderlyTurnsComplete(r, stream[MessageBytes(blocks, f)..], m - 1, blocks, r, leave, pace, o.calls, f);
    }
  }
}
