/**
 Where the groups lie in the one shared segment: the table of created groups, the offsets of
 their regions, and the numbers that lead to their queues.
 */
module GroupRegions {

  // One line of the group list; `token` tells whether the group starts with a token.
  datatype Entry = Entry(name: string, size: nat, token: bool)

  // The sizes the program is built with.
  datatype Layout = Layout(maxGroups: nat, maxClients: nat, groupTable: nat, clientTable: nat)

  datatype Directory = Directory(names: seq<string>, offsets: seq<nat>, tokens: nat)

  function Cost(e: Entry, l: Layout): nat {
    e.size + l.clientTable
  }

  // Bytes the groups of the list still need that are not among `names`.
  function Missing(list: seq<Entry>, names: seq<string>, l: Layout): nat {
    if list == [] then 0
    else (if list[0].name in names then 0 else Cost(list[0], l)) + Missing(list[1..], names, l)
  }

  // How many groups of the list are not among `names`.
  function Uncreated(list: seq<Entry>, names: seq<string>): nat {
    if list == [] then 0 else (if list[0].name in names then 0 else 1) + Uncreated(list[1..], names)
  }

  function Needed(list: seq<Entry>, l: Layout): nat {
    if list == [] then 0 else list[0].size + Needed(list[1..], l)
  }

  // How many of the groups `names` start with a token, as the list has it.
  function WithToken(list: seq<Entry>, names: seq<string>): nat {
    if names == [] then 0
    else
      var k := |names| - 1;
      var i := Find(list, names[k]);
      WithToken(list, names[..k]) + if i < |list| && list[i].token then 1 else 0
  }

  ghost predicate GoodList(list: seq<Entry>) {
    && (forall i :: 0 <= i < |list| ==> list[i].name != "")
    && (forall i, j :: 0 <= i < j < |list| ==> list[i].name != list[j].name)
  }

  // Groups created so far.
  function Created(d: Directory): (k: nat)
    ensures k <= |d.names|
    ensures k < |d.names| ==> d.names[k] == ""
    ensures forall i :: 0 <= i < k ==> d.names[i] != ""
  {
    FirstFree(d.names)
  }

  function FirstFree(names: seq<string>): (k: nat)
    ensures k <= |names|
    ensures k < |names| ==> names[k] == ""
    ensures forall i :: 0 <= i < k ==> names[i] != ""
  {
    if names == [] || names[0] == "" then 0 else 1 + FirstFree(names[1..])
  }

  function Find(list: seq<Entry>, name: string): (i: nat)
    ensures i <= |list|
    ensures i < |list| ==> list[i].name == name
    ensures forall k :: 0 <= k < i ==> list[k].name != name
  {
    if list == [] || list[0].name == name then 0 else 1 + Find(list[1..], name)
  }

  /** A request to have a group: nothing happens when it exists or the list does not know it;
      otherwise it gets the first free place and its region ends where the next one starts. */
  function Request(d: Directory, list: seq<Entry>, l: Layout, name: string): Directory {
    var i, k := Find(list, name), Created(d);
    if name in d.names || i == |list| || k >= |d.names| || k + 1 >= |d.offsets| then d
    else Directory(d.names[k := name], d.offsets[k + 1 := d.offsets[k] + Cost(list[i], l)],
                   d.tokens + if list[i].token then 1 else 0)
  }

  // The segment ends where the last region will end once every group of the list exists.
  ghost predicate Inv(d: Directory, list: seq<Entry>, l: Layout) {
    var k := Created(d);
    && GoodList(list) && |list| <= l.maxGroups
    && |d.names| == l.maxGroups && |d.offsets| == l.maxGroups + 1
    && (forall i :: k <= i < |d.names| ==> d.names[i] == "")
    && (forall i, j :: 0 <= i < j < k ==> d.names[i] != d.names[j])
    && (forall i :: 0 <= i < k ==>
          && Find(list, d.names[i]) < |list|
          && d.offsets[i + 1] == d.offsets[i] + Cost(list[Find(list, d.names[i])], l))
    && d.offsets[0] == l.groupTable
    && d.offsets[k] + Missing(list, d.names, l) == l.groupTable + Missing(list, [], l)
    && k + Uncreated(list, d.names) == |list|
    && d.tokens == WithToken(list, d.names[..k])
  }

  function Start(list: seq<Entry>, l: Layout): Directory {
    Directory(seq(l.maxGroups, _ => ""), seq(l.maxGroups + 1, i => if i == 0 then l.groupTable else 0), 0)
  }

  // What the memory check computes is the sum of all costs.
  lemma {:induction false} NeededIsMissing(list: seq<Entry>, l: Layout)
    ensures Missing(list, [], l) == Needed(list, l) + l.clientTable * |list|
    ensures Uncreated(list, []) == |list|
  {
    if list != [] {
      NeededIsMissing(list[1..], l);
      assert l.clientTable * |list| == l.clientTable * (|list| - 1) + l.clientTable;
    }
  }

  // Names that the list does not know make no difference.
  lemma {:induction false} SameMissing(list: seq<Entry>, a: seq<string>, b: seq<string>, l: Layout)
    requires forall i :: 0 <= i < |list| ==> (list[i].name in a <==> list[i].name in b)
    ensures Missing(list, a, l) == Missing(list, b, l) && Uncreated(list, a) == Uncreated(list, b)
  {
    if list != [] {
      assert forall i :: 0 <= i < |list[1..]| ==> list[1..][i] == list[i + 1];
      SameMissing(list[1..], a, b, l);
    }
  }

  lemma {:induction false} OneLessMissing(list: seq<Entry>, a: seq<string>, b: seq<string>, i: nat, l: Layout)
    requires i < |list| && list[i].name !in a && list[i].name in b
    requires forall k :: 0 <= k < |list| && k != i ==> (list[k].name in a <==> list[k].name in b)
    ensures Missing(list, a, l) == Missing(list, b, l) + Cost(list[i], l)
    ensures Uncreated(list, a) == Uncreated(list, b) + 1
  {
    assert forall k :: 0 <= k < |list[1..]| ==> list[1..][k] == list[k + 1];
    if i == 0 {
      SameMissing(list[1..], a, b, l);
    } else {
      OneLessMissing(list[1..], a, b, i - 1, l);
    }
  }

  lemma {:induction false} SomeUncreated(list: seq<Entry>, names: seq<string>, i: nat)
    requires i < |list| && list[i].name !in names
    ensures Uncreated(list, names) >= 1
  {
    if i > 0 {
      SomeUncreated(list[1..], names, i - 1);
    }
  }

  lemma StartInv(list: seq<Entry>, l: Layout)
    requires GoodList(list) && |list| <= l.maxGroups
    ensures Inv(Start(list, l), list, l) && Created(Start(list, l)) == 0
  {
    var d := Start(list, l);
    if l.maxGroups > 0 {
      assert d.names[0] == "";
    }
    SameMissing(list, [], d.names, l);
    NeededIsMissing(list, l);
  }

  // The place a new group gets is there, and so is the end of its region.
  lemma PlaceForNew(d: Directory, list: seq<Entry>, l: Layout, name: string)
    requires Inv(d, list, l) && name !in d.names && Find(list, name) < |list|
    ensures Created(d) < |list| <= |d.names|
  {
    SomeUncreated(list, d.names, Find(list, name));
  }

  lemma NamesGrow(names: seq<string>, k: nat, name: string)
    requires k == FirstFree(names) < |names| && name != ""
    requires forall i :: k <= i < |names| ==> names[i] == ""
    ensures FirstFree(names[k := name]) == k + 1
    ensures forall x: string :: x != "" ==> (x in names[k := name] <==> x in names || x == name)
  {
    var grown := names[k := name];
    assert grown[k] == name;
    assert forall i :: 0 <= i < |names| ==> (i <= k <==> grown[i] != "");
    var f := FirstFree(grown);
    assert !(f <= k);
    assert !(k + 1 < |grown| && grown[k + 1] != "");
    forall x: string | x != "" && x in names ensures x in grown {
      var i :| 0 <= i < |names| && names[i] == x;
      assert grown[i] == x;
    }
  }

  lemma RequestKeepsNames(d: Directory, list: seq<Entry>, l: Layout, name: string)
    requires Inv(d, list, l) && name !in d.names && Find(list, name) < |list|
    ensures var e, k := Request(d, list, l, name), Created(d);
      && k < |d.names| && e.names == d.names[k := name] && Created(e) == k + 1
      && (forall x: string :: x != "" ==> (x in e.names <==> x in d.names || x == name))
  {
    PlaceForNew(d, list, l, name);
    NamesGrow(d.names, Created(d), name);
  }

  lemma OneMoreName(list: seq<Entry>, names: seq<string>, k: nat, name: string)
    requires k < |names| && Find(list, name) < |list|
    ensures WithToken(list, names[k := name][..k + 1])
      == WithToken(list, names[..k]) + if list[Find(list, name)].token then 1 else 0
  {
    var now := names[k := name][..k + 1];
    assert now[..k] == names[..k] && now[k] == name;
  }

  lemma RequestKeepsInv(d: Directory, list: seq<Entry>, l: Layout, name: string)
    requires Inv(d, list, l)
    ensures Inv(Request(d, list, l, name), list, l)
  {
    var i := Find(list, name);
    if name !in d.names && i < |list| {
      PlaceForNew(d, list, l, name);
      RequestKeepsNames(d, list, l, name);
      var e := Request(d, list, l, name);
      OneLessMissing(list, d.names, e.names, i, l);
      OneMoreName(list, d.names, Created(d), name);
    }
  }

  // Any sequence of requests.
  function Requests(d: Directory, list: seq<Entry>, l: Layout, names: seq<string>): Directory
    decreases |names|
  {
    if names == [] then d else Requests(Request(d, list, l, names[0]), list, l, names[1..])
  }

  lemma {:induction false} RequestsKeepInv(d: Directory, list: seq<Entry>, l: Layout, names: seq<string>)
    requires Inv(d, list, l)
    ensures Inv(Requests(d, list, l, names), list, l)
    decreases |names|
  {
    if names != [] {
      RequestKeepsInv(d, list, l, names[0]);
      RequestsKeepInv(Request(d, list, l, names[0]), list, l, names[1..]);
    }
  }

  lemma {:induction false} RegionsAscend(d: Directory, list: seq<Entry>, l: Layout, i: nat, j: nat)
    requires Inv(d, list, l) && i <= j <= Created(d)
    ensures d.offsets[i] <= d.offsets[j]
    decreases j - i
  {
    if i < j {
      RegionsAscend(d, list, l, i, j - 1);
    }
  }

  datatype Region = Region(start: nat, end: nat)

  ghost function RegionOf(d: Directory, i: nat): Region
    requires i + 1 < |d.offsets|
  {
    Region(d.offsets[i], d.offsets[i + 1])
  }

  predicate Apart(a: Region, b: Region) {
    a.end <= b.start || b.end <= a.start
  }

  lemma RegionInside(d: Directory, list: seq<Entry>, l: Layout, i: nat)
    requires Inv(d, list, l) && i < Created(d)
    ensures var r := RegionOf(d, i);
      && l.groupTable <= r.start
      && r.end == r.start + Cost(list[Find(list, d.names[i])], l)
      && r.end <= l.groupTable + Needed(list, l) + l.clientTable * |list|
  {
    NeededIsMissing(list, l);
    RegionsAscend(d, list, l, 0, i);
    RegionsAscend(d, list, l, i + 1, Created(d));
  }

  lemma RegionsApart(d: Directory, list: seq<Entry>, l: Layout, i: nat, j: nat)
    requires Inv(d, list, l) && i < j < Created(d)
    ensures Apart(RegionOf(d, i), RegionOf(d, j))
  {
    RegionsAscend(d, list, l, i + 1, j);
  }

  ghost predicate WellPlaced(d: Directory, list: seq<Entry>, l: Layout) {
    && |d.names| < |d.offsets|
    && d.tokens == WithToken(list, d.names[..Created(d)])
    && (forall i, j :: 0 <= i < j < Created(d) ==>
          d.names[i] != d.names[j] && Apart(RegionOf(d, i), RegionOf(d, j)))
    && (forall i :: 0 <= i < Created(d) ==>
          && Find(list, d.names[i]) < |list|
          && RegionOf(d, i).start >= l.groupTable
          && RegionOf(d, i).end == RegionOf(d, i).start + list[Find(list, d.names[i])].size + l.clientTable
          && RegionOf(d, i).end <= l.groupTable + Needed(list, l) + l.clientTable * |list|)
  }

  /** For any list of distinct groups and any order of requests, every group is placed once, the
      regions are pairwise disjoint, each is as large as its group and its client table need, and
      all lie between the group table and the end of the segment that the memory check sized; and
      as many tokens are given out as there are created groups that start with one. */
  lemma RegionsDisjointAndInside(list: seq<Entry>, l: Layout, names: seq<string>)
    requires GoodList(list) && |list| <= l.maxGroups
    ensures WellPlaced(Requests(Start(list, l), list, l, names), list, l)
  {
    StartInv(list, l);
    RequestsKeepInv(Start(list, l), list, l, names);
    var d := Requests(Start(list, l), list, l, names);
    forall i, j | 0 <= i < j < Created(d) ensures Apart(RegionOf(d, i), RegionOf(d, j)) {
      RegionsApart(d, list, l, i, j);
    }
    forall i | 0 <= i < Created(d)
      ensures RegionOf(d, i).start >= l.groupTable
      ensures RegionOf(d, i).end == RegionOf(d, i).start + list[Find(list, d.names[i])].size + l.clientTable
      ensures RegionOf(d, i).end <= l.groupTable + Needed(list, l) + l.clientTable * |list| {
      RegionInside(d, list, l, i);
    }
  }

  // ---------------------------------------------------------------- the end of the table

  lemma RequestAdds(d: Directory, list: seq<Entry>, l: Layout, name: string)
    requires Inv(d, list, l)
    ensures Find(list, name) < |list| ==> name in Request(d, list, l, name).names
    ensures forall x: string :: x != "" && x in d.names ==> x in Request(d, list, l, name).names
  {
    if name !in d.names && Find(list, name) < |list| {
      RequestKeepsNames(d, list, l, name);
      assert Request(d, list, l, name).names[Created(d)] == name;
    }
  }

  lemma {:induction false} RequestsAdd(d: Directory, list: seq<Entry>, l: Layout, names: seq<string>)
    requires Inv(d, list, l)
    ensures forall x: string :: x in names && Find(list, x) < |list| ==> x in Requests(d, list, l, names).names
    ensures forall x: string :: x != "" && x in d.names ==> x in Requests(d, list, l, names).names
    decreases |names|
  {
    if names != [] {
      RequestKeepsInv(d, list, l, names[0]);
      RequestAdds(d, list, l, names[0]);
      RequestsAdd(Request(d, list, l, names[0]), list, l, names[1..]);
    }
  }

  lemma {:induction false} NothingUncreated(list: seq<Entry>, names: seq<string>)
    requires forall i :: 0 <= i < |list| ==> list[i].name in names
    ensures Uncreated(list, names) == 0
  {
    if list != [] {
      assert forall i :: 0 <= i < |list[1..]| ==> list[1..][i] == list[i + 1];
      NothingUncreated(list[1..], names);
    }
  }

  // Requests that fill the table of names, so that the last one writes behind the offsets.
  ghost predicate Fills(list: seq<Entry>, l: Layout, names: seq<string>) {
    Created(Requests(Start(list, l), list, l, names)) == l.maxGroups
  }

  /** A list that the memory check accepts makes the manager write behind the table of offsets
      exactly when it has as many groups as the table of names has places. */
  lemma OffsetsOverflowExactlyOnFullList(list: seq<Entry>, l: Layout)
    requires GoodList(list) && |list| <= l.maxGroups
    ensures (exists names :: Fills(list, l, names)) <==> |list| == l.maxGroups
  {
    var start := Start(list, l);
    StartInv(list, l);
    forall names | Fills(list, l, names) ensures |list| == l.maxGroups {
      RequestsKeepInv(start, list, l, names);
    }
    if |list| == l.maxGroups {
      var names := seq(|list|, i requires 0 <= i < |list| => list[i].name);
      RequestsKeepInv(start, list, l, names);
      RequestsAdd(start, list, l, names);
      var d := Requests(start, list, l, names);
      forall i | 0 <= i < |list| ensures list[i].name in d.names {
        assert names[i] == list[i].name;
      }
      NothingUncreated(list, d.names);
      assert Fills(list, l, names);
    }
  }

  // ---------------------------------------------------------------- numbers

  function Channel(l: Layout, group: nat, slot: nat): int {
    group * l.maxClients + 1 + slot
  }

  /** Two clients never share a queue, and no queue is the "any message" of number zero. */
  lemma ChannelsDistinct(l: Layout, g1: nat, s1: nat, g2: nat, s2: nat)
    requires s1 < l.maxClients && s2 < l.maxClients
    ensures Channel(l, g1, s1) == Channel(l, g2, s2) <==> g1 == g2 && s1 == s2
    ensures Channel(l, g1, s1) >= 1
  {
    var n := l.maxClients;
    if g1 < g2 {
      assert (g1 + 1) * n <= g2 * n;
      assert (g1 + 1) * n == g1 * n + n;
    } else if g2 < g1 {
      assert (g2 + 1) * n <= g1 * n;
      assert (g2 + 1) * n == g2 * n + n;
    }
  }

  // ---------------------------------------------------------------- the program

  class TokenManager {
    const layout: Layout
    const list: seq<Entry>
    const names: array<string>
    // One word more than the table has: the word behind it is where the first region starts.
    const offsets: array<nat>
    var tokens: nat

    ghost predicate Valid()
      reads this, names, offsets
    {
      Inv(View(), list, layout)
    }

    function View(): Directory
      reads this, names, offsets
    {
      Directory(names[..], offsets[..], tokens)
    }

    constructor (layout: Layout, list: seq<Entry>)
      requires GoodList(list) && |list| <= layout.maxGroups
      ensures Valid() && View() == Start(list, layout)
      ensures this.list == list && this.layout == layout && fresh(names) && fresh(offsets)
    {
      this.layout, this.list, tokens := layout, list, 0;
      names := new string[layout.maxGroups](_ => "");
      offsets := new nat[layout.maxGroups + 1](i => if i == 0 then layout.groupTable else 0);
      new;
      assert View() == Start(list, layout);
      StartInv(list, layout);
    }

    method Exists(name: string) returns (found: bool)
      ensures found <==> name != "" && name in names[..]
    {
      for i := 0 to names.Length
        invariant name != "" ==> forall k :: 0 <= k < i ==> names[k] != name
      {
        if names[i] != "" && names[i] == name {
          return true;
        }
      }
      return false;
    }

    // The first place that holds the name or is free.
    method Place(name: string) returns (i: nat)
      requires Valid() && name !in names[..] && Find(list, name) < |list|
      modifies names
      ensures i == Created(old(View())) < names.Length && names[..] == old(names[..])[i := name]
    {
      PlaceForNew(View(), list, layout, name);
      i := 0;
      while names[i] != ""
        invariant i <= Created(View())
        decreases names.Length - i
      {
        assert names[i] != name;
        i := i + 1;
      }
      names[i] := name;
    }

    method Lookup(name: string) returns (i: nat)
      ensures i == Find(list, name)
    {
      i := 0;
      while i < |list| && list[i].name != name
        invariant i <= |list| && forall k :: 0 <= k < i ==> list[k].name != name
      {
        i := i + 1;
      }
    }

    /** `outside` tells whether the end of the region was written behind the table of offsets:
        that is so exactly for the last group the table of names has room for. */
    method Create(name: string) returns (outside: bool)
      requires Valid() && (name == "" || name !in names[..])
      modifies names, offsets, this`tokens
      ensures Valid() && View() == Request(old(View()), list, layout, name)
      ensures outside <==> Created(old(View())) < Created(View()) == layout.maxGroups
    {
      RequestKeepsInv(View(), list, layout, name);
      var i := Lookup(name);
      if i == |list| {
        return false;
      }
      RequestKeepsNames(View(), list, layout, name);
      ghost var was := View();
      var k := Place(name);
      Measure(k, i);
      assert View() == Request(was, list, layout, name);
      return k + 1 == layout.maxGroups;
    }

    // Fixes where the region of a new group ends, and gives the group its token.
    method Measure(k: nat, i: nat)
      requires k + 1 < offsets.Length && i < |list|
      modifies offsets, this`tokens
      ensures offsets[..] == old(offsets[..])[k + 1 := old(offsets[k]) + Cost(list[i], layout)]
      ensures tokens == old(tokens) + if list[i].token then 1 else 0
    {
      offsets[k + 1] := offsets[k] + list[i].size + layout.clientTable;
      if list[i].token {
        tokens := tokens + 1;
      }
    }

    /** What the manager does with a message that asks for a group. */
    method Serve(name: string) returns (outside: bool)
      requires Valid()
      modifies names, offsets, this`tokens
      ensures Valid() && View() == Request(old(View()), list, layout, name)
      ensures outside <==> Created(old(View())) < Created(View()) == layout.maxGroups
    {
      var found := Exists(name);
      if found {
        return false;
      }
      outside := Create(name);
    }
  }

  datatype Check = Segment(bytes: nat) | TooMuch

  method CheckMemory(list: seq<Entry>, l: Layout, limit: nat) returns (r: Check)
    ensures r == (if Needed(list, l) + l.clientTable * |list| > limit || |list| > l.maxGroups then TooMuch
                  else Segment(Needed(list, l) + l.clientTable * |list|))
  {
    var total := 0;
    for i := 0 to |list|
      invariant total + Needed(list[i..], l) == Needed(list, l)
    {
      total := total + list[i].size;
    }
    total := total + l.clientTable * |list|;
    if total > limit || |list| > l.maxGroups {
      return TooMuch;
    }
    return Segment(total);
  }
}
