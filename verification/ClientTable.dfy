/**
 The table of clients of one group and the choice of who gets the token next. A slot whose
 name is empty is free.
 */
module ClientTables {

  datatype Table = Table(names: seq<string>, count: int, current: nat)

  // Slots that hold a name.
  function Occupied(names: seq<string>): nat {
    if names == [] then 0 else (if names[0] != "" then 1 else 0) + Occupied(names[1..])
  }

  ghost predicate Valid(t: Table) {
    |t.names| >= 1 && t.current < |t.names| && t.count == Occupied(t.names)
  }

  lemma {:induction false} OccupiedUpdate(names: seq<string>, i: nat, name: string)
    requires i < |names|
    ensures Occupied(names[i := name]) + (if names[i] != "" then 1 else 0)
              == Occupied(names) + (if name != "" then 1 else 0)
  {
    if i == 0 {
      assert names[i := name][1..] == names[1..];
    } else {
      assert names[i := name][1..] == names[1..][i - 1 := name];
      OccupiedUpdate(names[1..], i - 1, name);
    }
  }

  lemma {:induction false} OccupiedRange(names: seq<string>)
    ensures Occupied(names) <= |names|
    ensures Occupied(names) == 0 <==> forall i :: 0 <= i < |names| ==> names[i] == ""
    ensures Occupied(names) == |names| <==> forall i :: 0 <= i < |names| ==> names[i] != ""
  {
    if names != [] {
      OccupiedRange(names[1..]);
      assert forall i :: 1 <= i < |names| ==> names[i] == names[1..][i - 1];
      assert forall i :: 0 <= i < |names| - 1 ==> names[1..][i] == names[i + 1];
    }
  }

  // ---------------------------------------------------------------- joining and leaving

  // The first slot that holds `name`, or the number of slots.
  function FirstOf(names: seq<string>, name: string): (i: nat)
    ensures i <= |names|
    ensures i < |names| ==> names[i] == name
    ensures forall k :: 0 <= k < i ==> names[k] != name
  {
    if names == [] then 0 else if names[0] == name then 0 else 1 + FirstOf(names[1..], name)
  }

  datatype JoinResult = Joined(slot: nat) | Full | AlreadyThere

  // The error is told before the duplicate is looked for; an empty name is taken for the
  // name of a free slot.
  function JoinOutcome(t: Table, name: string): JoinResult {
    if t.count == |t.names| then Full
    else if name in t.names then AlreadyThere
    else Joined(FirstOf(t.names, ""))
  }

  function AfterJoin(t: Table, name: string): Table {
    match JoinOutcome(t, name)
    case Joined(slot) =>
      if slot < |t.names| then t.(names := t.names[slot := name], count := t.count + 1) else t
    case _ => t
  }

  function AfterLeave(t: Table, name: string): Table {
    var i := FirstOf(t.names, name);
    if i < |t.names| then t.(names := t.names[i := ""], count := t.count - 1) else t
  }

  lemma JoinKeepsValid(t: Table, name: string)
    requires Valid(t)
    ensures Valid(AfterJoin(t, name))
    ensures JoinOutcome(t, name).Joined? <==> name != "" && name !in t.names && Occupied(t.names) < |t.names|
    ensures JoinOutcome(t, name).Joined? ==>
      var slot := JoinOutcome(t, name).slot;
      && slot < |t.names| && t.names[slot] == "" && AfterJoin(t, name).names[slot] == name
      && (forall k :: 0 <= k < slot ==> t.names[k] != "")
      && (forall k :: 0 <= k < |t.names| && k != slot ==> AfterJoin(t, name).names[k] == t.names[k])
  {
    OccupiedRange(t.names);
    var slot := FirstOf(t.names, "");
    if slot < |t.names| {
      OccupiedUpdate(t.names, slot, name);
    }
  }

  /** Leaving undoes joining, and keeps the count right exactly when the name is not empty or
      no slot is free: an empty name is found in the first free slot. */
  lemma LeaveKeepsValid(t: Table, name: string)
    requires Valid(t)
    ensures Valid(AfterLeave(t, name)) <==> name != "" || Occupied(t.names) == |t.names|
    ensures name !in t.names ==> AfterLeave(t, name) == t
    ensures JoinOutcome(t, name).Joined? ==> AfterLeave(AfterJoin(t, name), name) == t
  {
    OccupiedRange(t.names);
    var i := FirstOf(t.names, name);
    if i < |t.names| {
      OccupiedUpdate(t.names, i, "");
    }
    JoinKeepsValid(t, name);
    if JoinOutcome(t, name).Joined? {
      var slot := JoinOutcome(t, name).slot;
      var u := AfterJoin(t, name);
      assert u.names[slot] == name;
      assert FirstOf(u.names, name) == slot;
      assert AfterLeave(u, name).names == t.names;
    }
  }

  // ---------------------------------------------------------------- whose turn it is

  // Steps from slot a forward to slot b, going round; a full turn when they are equal.
  function Turn(a: nat, b: nat, n: nat): (d: nat)
    requires a < n && b < n
    ensures 1 <= d <= n
  {
    if b > a then b - a else b + n - a
  }

  // The slot the manager comes to after c when all n slots are taken.
  function NextSlot(c: nat, n: nat): (r: nat)
    requires c < n
    ensures r < n && Turn(c, r, n) == 1
  {
    if c + 1 == n then 0 else c + 1
  }

  lemma TurnShifts(c: nat, n: nat)
    requires c < n
    ensures forall i :: 0 <= i < n && i != NextSlot(c, n) ==> Turn(c, i, n) == 1 + Turn(NextSlot(c, n), i, n)
    ensures Turn(c, c, n) == n
  {
  }

  // The first occupied slot after `current`, going round; `current` itself comes last.
  ghost predicate IsNext(names: seq<string>, current: nat, c: nat)
    requires current < |names|
  {
    && c < |names| && names[c] != ""
    && forall k :: 0 <= k < |names| && names[k] != "" ==>
         Turn(current, c, |names|) <= Turn(current, k, |names|)
  }

  // Clients whose name starts so are brokers of other machines.
  const LOCAL_BROKER := "localbroker"

  class GrupoClientes {
    const names: array<string>
    var cantClientes: int
    var clienteActual: nat
    var mutex: int
    // Where the token is said to be, for the sender of the broker.
    var tengoTokenGrupo: bool
    var tokenEnviado: bool
    var tengoTokenCliente: nat

    constructor (slots: nat)
      requires slots >= 1
      ensures Valid(View()) && View() == Table(seq(slots, _ => ""), 0, 0) && fresh(names) && mutex == 1
    {
      names := new string[slots](_ => "");
      cantClientes, clienteActual, mutex := 0, 0, 1;
      tengoTokenGrupo, tokenEnviado, tengoTokenCliente := false, true, 0;
      new;
      assert names[..] == seq(slots, _ => "");
      OccupiedRange(names[..]);
    }

    function View(): Table
      reads this, names
    {
      Table(names[..], cantClientes, clienteActual)
    }

    // The duplicate check gives the mutex back itself when it finds the name.
    method IsClient(name: string) returns (found: bool)
      modifies this`mutex
      ensures found <==> name in names[..]
      ensures mutex == old(mutex) + if found then 1 else 0
    {
      for i := 0 to names.Length
        invariant forall k :: 0 <= k < i ==> names[k] != name
        invariant mutex == old(mutex)
      {
        if names[i] == name {
          mutex := mutex + 1;
          return true;
        }
      }
      return false;
    }

    /** The mutex comes back once, except for a duplicate name, for which it is raised twice. */
    method Join(name: string) returns (r: JoinResult)
      requires Valid(View())
      modifies this`cantClientes, this`mutex, names
      ensures r == JoinOutcome(old(View()), name)
      ensures View() == AfterJoin(old(View()), name) && Valid(View())
      ensures mutex == old(mutex) + if r.AlreadyThere? then 1 else 0
    {
      JoinKeepsValid(View(), name);
      mutex := mutex - 1;
      if cantClientes == names.Length {
        mutex := mutex + 1;
        return Full;
      }
      var found := IsClient(name);
      if found {
        mutex := mutex + 1;
        return AlreadyThere;
      }
      r := Joined(names.Length);
      for i := 0 to names.Length
        invariant names[..] == old(names[..]) && cantClientes == old(cantClientes)
        invariant forall k :: 0 <= k < i ==> names[k] != ""
      {
        if names[i] == "" {
          assert FirstOf(names[..], "") == i;
          names[i] := name;
          cantClientes := cantClientes + 1;
          r := Joined(i);
          break;
        }
      }
      mutex := mutex + 1;
    }

    method Leave(name: string)
      modifies this`cantClientes, this`mutex, names
      ensures View() == AfterLeave(old(View()), name) && mutex == old(mutex)
    {
      mutex := mutex - 1;
      for i := 0 to names.Length
        invariant View() == old(View())
        invariant forall k :: 0 <= k < i ==> names[k] != name
        invariant mutex == old(mutex) - 1
      {
        if names[i] == name {
          assert FirstOf(names[..], name) == i;
          names[i] := "";
          cantClientes := cantClientes - 1;
          break;
        }
      }
      mutex := mutex + 1;
    }

    // The scan of the slots, starting after the current one.
    method NextOccupied() returns (c: nat)
      requires Valid(View()) && cantClientes > 0
      ensures c < names.Length && IsNext(names[..], clienteActual, c)
    {
      OccupiedRange(names[..]);
      var n := names.Length;
      c := if clienteActual + 1 == n then 0 else clienteActual + 1;
      ghost var seen: nat := 1;
      ghost var w: nat :| w < n && names[..][w] != "";
      while names[c] == ""
        invariant c < n && seen <= n && Turn(clienteActual, c, n) == seen
        invariant forall k :: 0 <= k < n && Turn(clienteActual, k, n) < seen ==> names[k] == ""
        decreases n - seen
      {
        assert forall k :: 0 <= k < n && Turn(clienteActual, k, n) == seen ==> k == c;
        assert Turn(clienteActual, w, n) > seen && c != clienteActual;
        c := if c + 1 == n then 0 else c + 1;
        seen := seen + 1;
      }
    }

    /** Chooses the first occupied slot after the current one, or slot 0 of an empty table, and
        returns the slot whose queue gets the token. */
    method PassToken() returns (queue: nat)
      requires Valid(View())
      modifies this`clienteActual, this`mutex, this`tengoTokenGrupo, this`tokenEnviado, this`tengoTokenCliente
      ensures Valid(View()) && queue == clienteActual == tengoTokenCliente
      ensures cantClientes > 0 ==> IsNext(names[..], old(clienteActual), queue)
      ensures cantClientes == 0 ==> queue == 0
      ensures tengoTokenGrupo == !(LOCAL_BROKER <= names[queue])
      ensures tokenEnviado == (old(tokenEnviado) && !(LOCAL_BROKER <= names[queue]))
      ensures mutex == old(mutex)
    {
      mutex := mutex - 1;
      if cantClientes == 0 {
        clienteActual := 0;
      } else {
        var next := NextOccupied();
        clienteActual := next;
      }
      if LOCAL_BROKER <= names[clienteActual] {
        tengoTokenGrupo, tokenEnviado := false, false;
      } else {
        tengoTokenGrupo := true;
      }
      tengoTokenCliente := clienteActual;
      mutex := mutex + 1;
      return clienteActual;
    }
  }

  lemma NextIsUnique(names: seq<string>, current: nat, c: nat, d: nat)
    requires current < |names| && IsNext(names, current, c) && IsNext(names, current, d)
    ensures c == d
  {
  }
}
