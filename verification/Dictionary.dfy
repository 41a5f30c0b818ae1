/**
 The dictionary of the ini parser: three parallel arrays of slots that grow by doubling, used
 as a map from keys to values, where a value may be missing.
 */
module Dictionaries {
  import opened Bytes

  datatype Option<T> = None | Some(value: T)

  type Key = seq<byte>

  type Value = seq<byte>

  const MIN_SIZE := 128

  // A C char is signed: its sign fills the upper bytes.
  function Extended(c: byte): bv32 {
    if c < 128 then c as bv32 else c as bv32 | 0xFFFFFF00
  }

  function Stir(h: bv32, c: byte): bv32 {
    var a := h + Extended(c);
    var b := a + (a << 10);
    b ^ (b >> 6)
  }

  function Stirred(key: Key): bv32 {
    if key == [] then 0 else Stir(Stirred(key[..|key| - 1]), key[|key| - 1])
  }

  function Finish(h: bv32): bv32 {
    var a := h + (h << 3);
    var b := a ^ (a >> 11);
    b + (b << 15)
  }

  function Hash(key: Key): bv32 {
    Finish(Stirred(key))
  }

  method ComputeHash(key: Key) returns (hash: bv32)
    ensures hash == Hash(key)
  {
    hash := 0;
    for i := 0 to |key|
      invariant hash == Stirred(key[..i])
    {
      assert key[..i + 1][..i] == key[..i];
      hash := Stir(hash, key[i]);
    }
    assert key[..|key|] == key;
    hash := Finish(hash);
  }

  /** Known values: of the empty key, of "a", and of one character with its sign set. */
  lemma HashValues()
    ensures Hash([]) == 0 && Hash([97]) == 0xca2e9442 && Hash([0xe9]) == 0x409848ff
  {
    assert [97 as byte][..0] == [] && [0xe9 as byte][..0] == [];
    assert Stirred([97]) == Stir(0, 97) && Stirred([0xe9]) == Stir(0, 0xe9);
  }

  // ---------------------------------------------------------------- slots

  function Used(keys: seq<Option<Key>>): nat {
    if keys == [] then 0 else (if keys[0].Some? then 1 else 0) + Used(keys[1..])
  }

  lemma {:induction false} UsedUpdate(keys: seq<Option<Key>>, i: nat, k: Option<Key>)
    requires i < |keys|
    ensures Used(keys[i := k]) + (if keys[i].Some? then 1 else 0) == Used(keys) + if k.Some? then 1 else 0
  {
    if i == 0 {
      assert keys[i := k][1..] == keys[1..];
    } else {
      assert keys[i := k][1..] == keys[1..][i - 1 := k];
      UsedUpdate(keys[1..], i - 1, k);
    }
  }

  lemma {:induction false} UsedRange(keys: seq<Option<Key>>)
    ensures Used(keys) <= |keys|
    ensures Used(keys) == |keys| <==> forall i :: 0 <= i < |keys| ==> keys[i].Some?
    ensures Used(keys) == 0 <==> forall i :: 0 <= i < |keys| ==> keys[i].None?
  {
    if keys != [] {
      UsedRange(keys[1..]);
      assert forall i :: 1 <= i < |keys| ==> keys[i] == keys[1..][i - 1];
      assert forall i :: 0 <= i < |keys| - 1 ==> keys[1..][i] == keys[i + 1];
    }
  }

  lemma {:induction false} UsedAppend(keys: seq<Option<Key>>, more: seq<Option<Key>>)
    requires forall i :: 0 <= i < |more| ==> more[i].None?
    ensures Used(keys + more) == Used(keys)
  {
    if keys == [] {
      assert keys + more == more;
      UsedRange(more);
    } else {
      assert (keys + more)[1..] == keys[1..] + more;
      UsedAppend(keys[1..], more);
    }
  }

  ghost predicate UniqueKeys(keys: seq<Option<Key>>) {
    forall i, j :: 0 <= i < j < |keys| && keys[i].Some? ==> keys[i] != keys[j]
  }

  // The map that the slots stand for.
  ghost predicate Represents(keys: seq<Option<Key>>, vals: seq<Option<Value>>, m: map<Key, Option<Value>>) {
    && |keys| == |vals|
    && (forall i :: 0 <= i < |keys| && keys[i].Some? ==> keys[i].value in m && m[keys[i].value] == vals[i])
    && (forall k :: k in m ==> Some(k) in keys)
  }

  // As many keys as occupied slots.
  lemma {:induction false} SizeIsUsed(keys: seq<Option<Key>>, vals: seq<Option<Value>>, m: map<Key, Option<Value>>)
    requires UniqueKeys(keys) && Represents(keys, vals, m)
    ensures |m| == Used(keys)
  {
    if keys == [] {
      assert m == map[];
    } else if keys[0].Some? {
      var rest := m - {keys[0].value};
      RepresentsTail(keys, vals, m, rest);
      SizeIsUsed(keys[1..], vals[1..], rest);
      assert |m| == |rest| + 1 by {
        assert m.Keys == rest.Keys + {keys[0].value};
        assert |m| == |m.Keys| && |rest| == |rest.Keys|;
      }
    } else {
      RepresentsTail(keys, vals, m, m);
      SizeIsUsed(keys[1..], vals[1..], m);
    }
  }

  lemma RepresentsTail(keys: seq<Option<Key>>, vals: seq<Option<Value>>, m: map<Key, Option<Value>>,
                       rest: map<Key, Option<Value>>)
    requires UniqueKeys(keys) && Represents(keys, vals, m) && keys != []
    requires rest == if keys[0].Some? then m - {keys[0].value} else m
    ensures UniqueKeys(keys[1..]) && Represents(keys[1..], vals[1..], rest)
  {
    forall k | k in rest ensures Some(k) in keys[1..] {
      var i :| 0 <= i < |keys| && keys[i] == Some(k);
      assert keys[1..][i - 1] == Some(k);
    }
  }

  // Twice the size, the second half cleared.
  method MemDouble<T>(a: array<T>, zero: T) returns (b: array<T>)
    ensures fresh(b) && b[..] == a[..] + seq(a.Length, _ => zero)
  {
    b := new T[2 * a.Length](_ => zero);
    forall i | 0 <= i < a.Length {
      b[i] := a[i];
    }
  }

  // ---------------------------------------------------------------- the dictionary

  // No slot met from n to i, going round, is free.
  ghost predicate TakenUpTo(keys: seq<Option<Key>>, n: nat, i: nat)
    requires n < |keys| && i < |keys|
  {
    if n <= i then forall j :: n <= j < i ==> keys[j].Some?
    else (forall j :: n <= j < |keys| ==> keys[j].Some?) && forall j :: 0 <= j < i ==> keys[j].Some?
  }

  lemma OneMoreTaken(keys: seq<Option<Key>>, n: nat, i: nat)
    requires n < |keys| && i < |keys| && TakenUpTo(keys, n, i) && keys[i].Some?
    ensures TakenUpTo(keys, n, if i + 1 < |keys| then i + 1 else 0)
  {
  }

  class Dictionary {
    var n: int
    var size: int
    var val: array<Option<Value>>
    var key: array<Option<Key>>
    var hash: array<bv32>
    ghost var contents: map<Key, Option<Value>>

    ghost predicate Valid()
      reads this, val, key, hash
    {
      && val != key && hash as object != key as object && hash as object != val as object
      && 1 <= size == val.Length == key.Length == hash.Length
      && n == Used(key[..])
      && UniqueKeys(key[..]) && Represents(key[..], val[..], contents)
      && forall i :: 0 <= i < size && key[i].Some? ==> hash[i] == Hash(key[i].value)
    }

    constructor (size: int)
      ensures Valid() && contents == map[] && n == 0
      ensures this.size == if size < MIN_SIZE then MIN_SIZE else size
      ensures fresh(val) && fresh(key) && fresh(hash)
    {
      var s := if size < MIN_SIZE then MIN_SIZE else size;
      n, this.size, contents := 0, s, map[];
      val := new Option<Value>[s](_ => None);
      key := new Option<Key>[s](_ => None);
      hash := new bv32[s](_ => 0);
      new;
      UsedRange(key[..]);
    }

    // The slot of a key, or `size`; all loops over the slots start with this search.
    method Search(k: Key) returns (i: int, h: bv32)
      requires Valid()
      ensures h == Hash(k) && 0 <= i <= size
      ensures i < size <==> k in contents
      ensures i < size ==> key[i] == Some(k) && val[i] == contents[k]
    {
      h := ComputeHash(k);
      i := 0;
      while i < size
        invariant 0 <= i <= size
        invariant forall j :: 0 <= j < i ==> key[j] != Some(k)
      {
        if key[i].Some? && hash[i] == h && key[i].value == k {
          assert key[..][i] == Some(k);
          return;
        }
        i := i + 1;
      }
      assert Some(k) !in key[..];
    }

    /** A missing key gives the default; a key set without a value gives no value. */
    method Get(k: Key, def: Option<Value>) returns (v: Option<Value>)
      requires Valid()
      ensures v == if k in contents then contents[k] else def
    {
      var i, _ := Search(k);
      if i < size {
        return val[i];
      }
      return def;
    }

    method Double()
      requires Valid()
      modifies this`size, this`val, this`key, this`hash
      ensures Valid() && size == 2 * old(size)
      ensures fresh(val) && fresh(key) && fresh(hash)
    {
      var s := size;
      var v := MemDouble(val, None);
      var k := MemDouble(key, None);
      var h := MemDouble(hash, 0);
      GrownRepresents(key[..], val[..], contents, s);
      val, key, hash, size := v, k, h, 2 * s;
    }

    // The first free slot from n on, going round.
    method FreeSlot() returns (i: int)
      requires Valid() && n < size
      ensures 0 <= i < size && key[i].None?
      ensures TakenUpTo(key[..], n, i)
    {
      UsedRange(key[..]);
      ghost var free :| 0 <= free < size && key[..][free].None?;
      i := n;
      while key[i].Some?
        invariant 0 <= i < size
        invariant TakenUpTo(key[..], n, i)
        decreases if i <= free then free - i else free + size - i
      {
        OneMoreTaken(key[..], n, i);
        i := i + 1;
        if i == size {
          i := 0;
        }
      }
    }

    /** Replaces the value of a key or adds it, growing first when every slot is taken. A missing
        key is refused. */
    method Set(k: Option<Key>, v: Option<Value>) returns (status: int)
      requires Valid()
      modifies this, val, key, hash
      ensures Valid() && (status == 0 <==> k.Some?)
      ensures contents == if k.Some? then old(contents)[k.value := v] else old(contents)
      ensures size == if k.Some? && k.value !in old(contents) && old(n) == old(size) then 2 * old(size) else old(size)
      ensures fresh(val) || val == old(val)
      ensures fresh(key) || key == old(key)
      ensures fresh(hash) || hash == old(hash)
    {
      if k.None? {
        return -1;
      }
      var i, h := Search(k.value);
      if i < size {
        Replace(i, k.value, v);
        return 0;
      }
      UsedRange(key[..]);
      if n == size {
        Double();
      }
      i := FreeSlot();
      Insert(i, k.value, v, h);
      return 0;
    }

    method Replace(i: int, k: Key, v: Option<Value>)
      requires Valid() && 0 <= i < size && key[i] == Some(k)
      modifies val, this`contents
      ensures Valid() && contents == old(contents)[k := v]
    {
      assert key[..][i] == Some(k);
      ghost var before := val[..];
      val[i] := v;
      contents := contents[k := v];
      assert val[..] == before[i := v];
      ReplaceRepresents(key[..], before, old(contents), i, k, v);
    }

    method Insert(i: int, k: Key, v: Option<Value>, h: bv32)
      requires Valid() && 0 <= i < size && key[i].None? && k !in contents && h == Hash(k)
      modifies val, key, hash, this`n, this`contents
      ensures Valid() && contents == old(contents)[k := v]
    {
      UsedUpdate(key[..], i, Some(k));
      assert Some(k) !in key[..];
      ghost var before := key[..];
      key[i] := Some(k);
      val[i] := v;
      hash[i] := h;
      n := n + 1;
      contents := contents[k := v];
      assert key[..] == before[i := Some(k)];
      InsertRepresents(before, old(val[..]), old(contents), i, k, v);
    }

    /** Removes a key and its slot; nothing happens when the key is missing. */
    method Unset(k: Option<Key>)
      requires Valid()
      modifies this`n, this`contents, val, key, hash
      ensures Valid() && contents == if k.Some? then old(contents) - {k.value} else old(contents)
      ensures n == if k.Some? && k.value in old(contents) then old(n) - 1 else old(n)
    {
      if k.None? {
        return;
      }
      var i, _ := Search(k.value);
      if i >= size {
        return;
      }
      Remove(i, k.value);
    }

    method Remove(i: int, k: Key)
      requires Valid() && 0 <= i < size && key[i] == Some(k)
      modifies this`n, this`contents, val, key, hash
      ensures Valid() && contents == old(contents) - {k} && n == old(n) - 1
    {
      UsedUpdate(key[..], i, None);
      ghost var before := key[..];
      key[i] := None;
      val[i] := None;
      hash[i] := 0;
      n := n - 1;
      contents := contents - {k};
      assert key[..] == before[i := None];
      RemoveRepresents(before, old(val[..]), old(contents), i, k);
    }
  }

  lemma GrownRepresents(keys: seq<Option<Key>>, vals: seq<Option<Value>>, m: map<Key, Option<Value>>, s: nat)
    requires UniqueKeys(keys) && Represents(keys, vals, m)
    ensures var more := seq(s, _ => None);
      && UniqueKeys(keys + more) && Represents(keys + more, vals + more, m) && Used(keys + more) == Used(keys)
  {
    var more: seq<Option<Key>> := seq(s, _ => None);
    UsedAppend(keys, more);
    forall k | k in m ensures Some(k) in keys + more {
      assert Some(k) in keys;
    }
  }

  lemma InsertRepresents(keys: seq<Option<Key>>, vals: seq<Option<Value>>, m: map<Key, Option<Value>>, i: nat,
                         k: Key, v: Option<Value>)
    requires UniqueKeys(keys) && Represents(keys, vals, m) && i < |keys| && keys[i].None? && k !in m
    ensures UniqueKeys(keys[i := Some(k)]) && Represents(keys[i := Some(k)], vals[i := v], m[k := v])
  {
    var after := keys[i := Some(k)];
    assert forall j :: 0 <= j < |keys| ==> keys[j] != Some(k);
    forall x | x in m[k := v] ensures Some(x) in after {
      if x == k {
        assert after[i] == Some(k);
      } else {
        var j :| 0 <= j < |keys| && keys[j] == Some(x);
        assert after[j] == Some(x);
      }
    }
  }

  lemma ReplaceRepresents(keys: seq<Option<Key>>, vals: seq<Option<Value>>, m: map<Key, Option<Value>>, i: nat,
                          k: Key, v: Option<Value>)
    requires UniqueKeys(keys) && Represents(keys, vals, m) && i < |keys| && keys[i] == Some(k)
    ensures Represents(keys, vals[i := v], m[k := v])
  {
    assert forall j :: 0 <= j < |keys| && j != i ==> keys[j] != Some(k);
  }

  lemma RemoveRepresents(keys: seq<Option<Key>>, vals: seq<Option<Value>>, m: map<Key, Option<Value>>, i: nat, k: Key)
    requires UniqueKeys(keys) && Represents(keys, vals, m) && i < |keys| && keys[i] == Some(k)
    ensures UniqueKeys(keys[i := None]) && Represents(keys[i := None], vals[i := None], m - {k})
  {
    var after := keys[i := None];
    forall x | x in m - {k} ensures Some(x) in after {
      var j :| 0 <= j < |keys| && keys[j] == Some(x);
      assert after[j] == Some(x);
    }
  }
}
