/**
 The two processes of a node of the group ring: what `inbound` and `outbound` do with a
 message of the election. Names are compared as Python compares strings; here a name is a
 number that stands for its place in that order.
 */
module RingNodes {

  datatype Kind = Leader | LinkBroken

  // The inbound driver's variables; `running` tells whether its leader process is alive.
  datatype Inbound = Inbound(self: int, leader: int, running: bool)

  datatype Verdict = Verdict(node: Inbound, forward: bool, elected: bool)

  function HandleInbound(x: Inbound, kind: Kind, name: int): Verdict {
    match kind
    case Leader =>
      if name == x.self then Verdict(x.(leader := name, running := true), false, !x.running)
      else if name < x.self then Verdict(x, false, false)
      else Verdict(x.(leader := name, running := false), true, false)
    case LinkBroken =>
      if name == x.self then Verdict(x, false, false) else Verdict(x.(running := false), true, false)
  }

  // The outbound driver keeps a leader's name of its own.
  datatype Outbound = Outbound(self: int, leader: int)

  datatype Passing = Passing(node: Outbound, forward: bool)

  function HandleOutbound(x: Outbound, kind: Kind, name: int): Passing {
    match kind
    case Leader =>
      if name == x.self then Passing(x, true)
      else if name < x.self then Passing(x, false)
      else Passing(x.(leader := name), true)
    case LinkBroken => Passing(x, true)
  }

  class InboundDriver {
    const self: int
    var leader: int
    var running: bool
    var userMessages: nat   // messages pushed to the user's inbound queue

    constructor (self: int)
      ensures View() == Inbound(self, self, false)
    {
      this.self := self;
      leader, running, userMessages := self, false, 0;
    }

    function View(): Inbound
      reads this
    {
      Inbound(self, leader, running)
    }

    method Clean()
      modifies this`running
      ensures View() == old(View()).(running := false)
    {
      running := false;
    }

    method HandleLoopMessage(kind: Kind, name: int) returns (forward: bool)
      modifies this
      ensures var r := HandleInbound(old(View()), kind, name);
        && View() == r.node && forward == r.forward
        && userMessages == old(userMessages) + if r.elected then 1 else 0
      ensures forward <==> name > self || (kind.LinkBroken? && name != self)
      ensures forward ==> !running
      ensures running && !old(running) ==> kind.Leader? && name == self && userMessages == old(userMessages) + 1
      ensures kind.Leader? && name >= self ==> leader == name
      ensures kind.Leader? && name == self ==> running
      ensures kind.LinkBroken? || name < self ==> leader == old(leader)
      ensures !forward ==> (old(running) ==> running)
    {
      match kind {
        case Leader =>
          if name == self {
            leader := name;
            if running {
              return false;
            }
            Clean();
            running := true;
            userMessages := userMessages + 1;
            return false;
          } else if name < self {
            return false;
          } else {
            Clean();
            leader := name;
            return true;
          }
        case LinkBroken =>
          if name == self {
            return false;
          } else {
            Clean();
            return true;
          }
      }
    }
  }

  class OutboundDriver {
    const self: int
    var leader: int

    constructor (self: int)
      ensures View() == Outbound(self, self)
    {
      this.self := self;
      leader := self;
    }

    function View(): Outbound
      reads this
    {
      Outbound(self, leader)
    }

    method HandleLoopMessage(kind: Kind, name: int) returns (forward: bool)
      modifies this
      ensures Passing(View(), forward) == HandleOutbound(old(View()), kind, name)
      ensures !forward <==> kind.Leader? && name < self
      ensures leader == if kind.Leader? && name > self then name else old(leader)
    {
      match kind {
        case Leader =>
          if name == self {
            return true;
          } else if name < self {
            return false;
          } else {
            leader := name;
            return true;
          }
        case LinkBroken => return true;
      }
    }
  }
}
