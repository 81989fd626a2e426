// src/Channel.cpp and src/ChannelModes.cpp: one channel, its modes and its three client sets.
module Channels {
  import opened Clients

  datatype ModesRec = ModesRec(
    inviteOnly: bool,
    topicRestricted: bool,
    channelProtected: bool,
    memberLimited: bool,
    maxMember: int,
    channelPass: string
  )

  const NO_MODES := ModesRec(false, false, false, false, 0, "")

  datatype ChanRec = ChanRec(
    name: string,
    topic: string,
    modes: ModesRec,
    members: set<Client>,
    operators: set<Client>,
    invited: set<Client>
  ) {
    /** Channel::removeClient */
    function Without(c: Client): ChanRec {
      this.(members := members - {c}, operators := operators - {c}, invited := invited - {c})
    }
  }

  function EmptyChannel(name: string): ChanRec {
    ChanRec(name, "", NO_MODES, {}, {}, {})
  }

  class ChannelModes {
    var inviteOnly: bool
    var topicRestricted: bool
    var channelProtected: bool
    var memberLimited: bool
    var maxMember: int
    var channelPass: string

    ghost function Rec(): ModesRec
      reads this
    {
      ModesRec(inviteOnly, topicRestricted, channelProtected, memberLimited, maxMember, channelPass)
    }

    constructor ()
      ensures Rec() == NO_MODES
    {
      inviteOnly, topicRestricted, channelProtected, memberLimited := false, false, false, false;
      maxMember, channelPass := 0, "";
    }

    method SetInviteOnly(on: bool)
      modifies this
      ensures Rec() == old(Rec()).(inviteOnly := on)
    {
      inviteOnly := on;
    }

    method SetTopicRestricted(on: bool)
      modifies this
      ensures Rec() == old(Rec()).(topicRestricted := on)
    {
      topicRestricted := on;
    }

    method SetMemberLimit(limit: int)
      modifies this
      ensures Rec() == old(Rec()).(memberLimited := true, maxMember := limit)
    {
      memberLimited, maxMember := true, limit;
    }

    method UnsetMemberLimit()
      modifies this
      ensures Rec() == old(Rec()).(memberLimited := false)
    {
      memberLimited := false;
    }

    method SetChannelProtected(password: string)
      modifies this
      ensures Rec() == old(Rec()).(channelProtected := true, channelPass := password)
    {
      channelProtected, channelPass := true, password;
    }

    method UnsetChannelProtected()
      modifies this
      ensures Rec() == old(Rec()).(channelProtected := false, channelPass := "")
    {
      channelProtected, channelPass := false, "";
    }
  }

  /** The iterator loop of isChannelMember, isOperator and isInvitedMember. */
  method Contains(s: set<Client>, target: Client) returns (found: bool)
    ensures found <==> target in s
  {
    var rest := s;
    while rest != {}
      invariant rest <= s
      invariant target in s ==> target in rest
    {
      var it :| it in rest;
      if it == target {
        return true;
      }
      rest := rest - {it};
    }
    return false;
  }

  class Channel {
    const name: string
    const modes: ChannelModes
    var topic: string
    var members: set<Client>
    var operators: set<Client>
    var invited: set<Client>

    ghost function Rec(): ChanRec
      reads this, modes
    {
      ChanRec(name, topic, modes.Rec(), members, operators, invited)
    }

    constructor (name: string)
      ensures this.name == name && fresh(modes)
      ensures Rec() == EmptyChannel(name)
    {
      this.name := name;
      modes := new ChannelModes();
      topic := "";
      members, operators, invited := {}, {}, {};
    }

    method SetChannelTopic(newTopic: string)
      modifies this
      ensures Rec() == old(Rec()).(topic := newTopic)
    {
      topic := newTopic;
    }

    method IsChannelMember(target: Client) returns (found: bool)
      ensures found <==> target in members
    {
      found := Contains(members, target);
    }

    method IsOperator(target: Client) returns (found: bool)
      ensures found <==> target in operators
    {
      found := Contains(operators, target);
    }

    method IsInvitedMember(target: Client) returns (found: bool)
      ensures found <==> target in invited
    {
      found := Contains(invited, target);
    }

    method AddMember(target: Client) returns (added: bool)
      modifies this
      ensures added <==> target !in old(members)
      ensures Rec() == old(Rec()).(members := old(members) + {target})
    {
      var present := IsChannelMember(target);
      if !present {
        members := members + {target};
        return true;
      }
      return false;
    }

    method AddOperator(target: Client) returns (added: bool)
      modifies this
      ensures added <==> target !in old(operators)
      ensures Rec() == old(Rec()).(operators := old(operators) + {target})
    {
      var present := IsOperator(target);
      if !present {
        operators := operators + {target};
        return true;
      }
      return false;
    }

    method AddInvitedMember(target: Client) returns (added: bool)
      modifies this
      ensures added <==> target !in old(invited)
      ensures Rec() == old(Rec()).(invited := old(invited) + {target})
    {
      var present := IsInvitedMember(target);
      if !present {
        invited := invited + {target};
        return true;
      }
      return false;
    }

    method RemoveOperator(target: Client) returns (removed: bool)
      modifies this
      ensures removed <==> target in old(operators)
      ensures Rec() == old(Rec()).(operators := old(operators) - {target})
    {
      removed := target in operators;
      operators := operators - {target};
    }

    /** `target` has been taken out of the three sets, and nothing else has changed. */
    twostate predicate LeftBy(target: Client)
      reads this
    {
      && topic == old(topic)
      && members == old(members) - {target}
      && operators == old(operators) - {target}
      && invited == old(invited) - {target}
    }

    method RemoveClient(target: Client) returns (removed: bool)
      modifies this
      ensures removed <==> target in old(members) + old(operators) + old(invited)
      ensures LeftBy(target)
      ensures Rec() == old(Rec()).Without(target)
    {
      removed := false;
      if target in members {
        removed := true;
      }
      members := members - {target};
      var wasOperator := RemoveOperator(target);
      if wasOperator {
        removed := true;
      }
      if target in invited {
        removed := true;
      }
      invited := invited - {target};
    }
  }
}
