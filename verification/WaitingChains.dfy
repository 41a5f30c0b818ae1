/** Who waits for whom, as a graph: every node waits for at most one other. */
module WaitingChains {

  datatype Blocker = Nothing | For(q: nat)

  ghost predicate Proper(e: seq<Blocker>) {
    forall r :: 0 <= r < |e| && e[r].For? ==> e[r].q < |e|
  }

  // Following the chain from r ends, after at most n more nodes, at one that waits for nothing.
  ghost predicate EndsWithin(e: seq<Blocker>, r: nat, n: nat)
    requires Proper(e) && r < |e|
    decreases n
  {
    e[r].Nothing? || (n > 0 && EndsWithin(e, e[r].q, n - 1))
  }

  // Nodes that all wait for nodes of the set.
  ghost predicate Closed(e: seq<Blocker>, d: set<nat>) {
    forall q :: q in d ==> q < |e| && e[q].For? && e[q].q in d
  }

  // The node is in, or waits for, a circle.
  ghost predicate Circular(e: seq<Blocker>, r: nat) {
    exists d :: Closed(e, d) && r in d
  }

  lemma {:induction false} SmallSet(v: set<nat>, n: nat)
    requires forall q :: q in v ==> q < n
    ensures |v| <= n
    decreases n
  {
    if n > 0 {
      SmallSet(v - {n - 1}, n - 1);
    } else {
      assert v == {};
    }
  }

  // The chain has been at the nodes of v and is now at r.
  ghost predicate Trail(e: seq<Blocker>, v: set<nat>, r: nat) {
    && r < |e| && r !in v
    && forall q :: q in v ==> q < |e| && e[q].For? && (e[q].q in v || e[q].q == r)
  }

  lemma TrailIsShort(e: seq<Blocker>, v: set<nat>, r: nat)
    requires Trail(e, v, r)
    ensures |v + {r}| == |v| + 1 <= |e|
  {
    SmallSet(v + {r}, |e|);
  }

  lemma TrailGoesOn(e: seq<Blocker>, v: set<nat>, r: nat)
    requires Proper(e) && Trail(e, v, r) && e[r].For?
    ensures if e[r].q in v + {r} then Closed(e, v + {r}) else Trail(e, v + {r}, e[r].q)
  {
  }

  lemma CircleReaches(e: seq<Blocker>, r: nat)
    requires Proper(e) && r < |e| && e[r].For? && Circular(e, e[r].q)
    ensures Circular(e, r)
  {
    var d :| Closed(e, d) && e[r].q in d;
    assert Closed(e, d + {r});
  }

  // The chain ends, or comes back to a node it has been at.
  lemma {:induction false} FollowChain(e: seq<Blocker>, v: set<nat>, r: nat)
    requires Proper(e) && Trail(e, v, r) && |v| < |e|
    ensures EndsWithin(e, r, |e| - |v|) || Circular(e, r)
    decreases |e| - |v|, 1
  {
    if e[r].For? {
      TrailIsShort(e, v, r);
      TrailGoesOn(e, v, r);
      if e[r].q !in v + {r} {
        FollowFurther(e, v + {r}, r);
      } else {
        assert Closed(e, v + {r});
      }
    }
  }

  lemma {:induction false} FollowFurther(e: seq<Blocker>, v: set<nat>, r: nat)
    requires Proper(e) && r < |e| && e[r].For? && |v| <= |e| && Trail(e, v, e[r].q)
    ensures EndsWithin(e, r, |e| - |v| + 1) || Circular(e, r)
    decreases |e| - |v|, 2
  {
    TrailIsShort(e, v, e[r].q);
    FollowChain(e, v, e[r].q);
    if Circular(e, e[r].q) {
      CircleReaches(e, r);
    } else {
      assert EndsWithin(e, e[r].q, |e| - |v|);
    }
  }

  lemma {:induction false} ClosedNeverEnds(e: seq<Blocker>, d: set<nat>, r: nat, n: nat)
    requires Proper(e) && Closed(e, d) && r in d
    ensures r < |e| && !EndsWithin(e, r, n)
    decreases n
  {
    if n > 0 {
      ClosedNeverEnds(e, d, e[r].q, n - 1);
    }
  }

  /** A chain ends exactly unless it runs into a circle. */
  lemma EndsExactlyUnlessCircular(e: seq<Blocker>, r: nat)
    requires Proper(e) && r < |e|
    ensures EndsWithin(e, r, |e|) <==> !Circular(e, r)
  {
    if !EndsWithin(e, r, |e|) {
      FollowChain(e, {}, r);
    }
    forall d | Closed(e, d) && r in d ensures !EndsWithin(e, r, |e|) {
      ClosedNeverEnds(e, d, r, |e|);
    }
  }

  // Chains can only become shorter when nodes cease to wait.
  lemma {:induction false} FewerWait(e: seq<Blocker>, f: seq<Blocker>, r: nat, n: nat)
    requires Proper(e) && Proper(f) && |e| == |f| && r < |e| && EndsWithin(e, r, n)
    requires forall q :: 0 <= q < |e| ==> f[q].Nothing? || f[q] == e[q]
    ensures EndsWithin(f, r, n)
    decreases n
  {
    if f[r].For? {
      FewerWait(e, f, e[r].q, n - 1);
    }
  }

  // When every node waits only for greater ones, all chains end.
  lemma {:induction false} AscendingEnds(e: seq<Blocker>, r: nat, n: nat)
    requires Proper(e) && r < |e| && forall q :: 0 <= q < |e| && e[q].For? ==> e[q].q > q
    requires r + n >= |e|
    ensures EndsWithin(e, r, n)
    decreases n
  {
    if e[r].For? {
      AscendingEnds(e, e[r].q, n - 1);
    }
  }
}
