// src/handleJoin.cpp and src/handleKick.cpp on the heap: channels come and go while a list is walked.
module JoinKick {
  import opened Text
  import opened Parser
  import opened Clients
  import opened Channels
  import opened Replies
  import opened Model
  import opened Commands
  import opened Names
  import opened Safety
  import opened ServerStates
  import opened Handlers

  // ----- JOIN -----------------------------------------------------------------------------------

  /** _isValidChannelName */
  method IsValidChannelName(name: string) returns (valid: bool)
    ensures valid <==> ValidChannelName(name)
  {
    if name == "" {
      return false;
    }
    if |name| == 1 {
      return false;
    }
    if name[0] != '#' {
      return false;
    }
    for i := 1 to |name|
      invariant forall k | 0 <= k < i :: ChannelChar(name[k])
    {
      if IsSpace(name[i]) || name[i] == ',' || name[i] == ':' || IsCntrl(name[i]) {
        assert name[i] in name;
        return false;
      }
    }
    return true;
  }

  /** The loop of _notifyMembers. */
  method MemberNames(channel: Channel, state: ServerState) returns (memberLine: string)
    requires channel.members <= state.clientsByFd.Values && Apart(channel.members)
    ensures memberLine == MemberLine(state.View(), channel.Rec(), channel.members, "")
  {
    ghost var s, ch := state.View(), channel.Rec();
    memberLine := "";
    var rest := channel.members;
    while rest != {}
      invariant rest <= channel.members
      invariant MemberLine(s, ch, rest, memberLine) == MemberLine(s, ch, channel.members, "")
    {
      FirstExists(rest);
      var it :| it in rest && IsFirst(it, rest);
      FirstIs(it, rest);
      assert s.Rec(it) == it.Rec();
      ghost var before := memberLine;
      if memberLine != "" {
        memberLine := memberLine + " ";
      }
      if it in channel.operators {
        memberLine := memberLine + "@";
      }
      memberLine := memberLine + it.nickname;
      assert memberLine
          == (if before == "" then "" else before + " ") + (if it in ch.operators then "@" else "")
             + s.Rec(it).nickname;
      rest := rest - {it};
    }
    state.NothingChanged();
    assert channel.Rec() == ch;
  }

  /** The end of _joinSingleChannel: announce the join, then topic and members for the sender. */
  method AnnounceJoin(fd: int, client: Client, channel: Channel, state: ServerState) returns (result: seq<Reply>)
    requires client in state.clientsByFd.Values && client.socketFd == fd
    requires channel.members <= state.clientsByFd.Values && Apart(channel.members)
    ensures result == JoinReplies(state.View(), client, channel.Rec())
    ensures state.View() == old(state.View()) && channel.Rec() == old(channel.Rec())
  {
    Live(state, client);
    ghost var s, ch := state.View(), channel.Rec();
    result := BroadcastToChannel([], channel, Joined(PrefixOf(client), channel.name), null);
    var topic := ReplyTopic(fd, client, channel);
    var memberLine := MemberNames(channel, state);
    state.NothingChanged();
    assert channel.Rec() == ch;
    result := result + topic;
    result := result + [Reply(fd, NumericFor(client, 353, channel.name + " :" + memberLine))];
    result := result + [Reply(fd, NumericFor(client, 366, channel.name))];
    JoinRepliesAre(s, client, ch, memberLine, result);
  }

  lemma JoinRepliesAre(s: State, c: Client, ch: ChanRec, memberLine: string, result: seq<Reply>)
    requires memberLine == MemberLine(s, ch, ch.members, "")
    requires result == Deliver(ch.members, null, Joined(Prefix(s, c), ch.name)) + NotifyTopic(s, c, ch)
      + Tell(s, c, 353, ch.name + " :" + memberLine) + Tell(s, c, 366, ch.name)
    ensures result == JoinReplies(s, c, ch)
  {
  }

  /** The three admission rules, in the order of the code: the refusing numeric, or 0. */
  method Admission(client: Client, channel: Channel, key: string) returns (refusal: nat)
    ensures refusal == Refusal(channel.Rec(), client, key)
  {
    if channel.modes.inviteOnly {
      var invited := channel.IsInvitedMember(client);
      if !invited {
        return 473;
      }
    }
    if channel.modes.channelProtected {
      if key != channel.modes.channelPass {
        return 475;
      }
    }
    if channel.modes.memberLimited {
      if |channel.members| >= channel.modes.maxMember {
        return 471;
      }
    }
    return 0;
  }

  /** ensureChannel and the two insertions that follow it. */
  method CreateChannel(client: Client, name: string, state: ServerState) returns (target: Channel)
    requires state.Shape() && name !in state.channels
    modifies state`channels
    ensures state.Shape() && name in state.channels && state.channels[name] == target
    ensures fresh(target) && fresh(target.modes) && state.Grown()
    ensures target.Rec() == Created(name, client)
    ensures state.View() == old(state.View()).WithChannel(name, Created(name, client))
  {
    target := state.EnsureChannel(name);
    var added := target.AddMember(client);
    var addedOp := target.AddOperator(client);
    state.ChannelAdded(name, target);
  }

  /** Joining a channel that has to be created. */
  method JoinNew(fd: int, client: Client, name: string, state: ServerState) returns (result: seq<Reply>)
    requires state.Shape() && client in state.clientsByFd.Values && client.socketFd == fd
    requires name !in state.channels
    modifies state`channels
    ensures state.Shape() && state.Grown()
    ensures var s, ch := old(state.View()), Created(name, client);
      Out(state.View(), result) == Out(s.WithChannel(name, ch), JoinReplies(s, client, ch))
  {
    ghost var s := state.View();
    var target := CreateChannel(client, name, state);
    SameJoinReplies(s, state.View(), client, target.Rec());
    result := AnnounceJoin(fd, client, target, state);
  }

  /** Joining a channel that is there and admits the client. */
  method JoinOld(fd: int, client: Client, name: string, target: Channel, state: ServerState)
    returns (result: seq<Reply>)
    requires state.Tidy() && client in state.clientsByFd.Values && client.socketFd == fd
    requires name in state.channels && state.channels[name] == target
    modifies target
    ensures state.Shape()
    ensures var s := old(state.View());
      var ch := s.channels[name].(members := s.channels[name].members + {client});
      Out(state.View(), result) == Out(s.WithChannel(name, ch), JoinReplies(s, client, ch))
  {
    ghost var s := state.View();
    ghost var ch := s.channels[name].(members := s.channels[name].members + {client});
    MembersLive(state, name);
    var added := target.AddMember(client);
    state.ChannelChanged(name);
    assert target.Rec() == ch;
    ghost var t := state.View();
    result := AnnounceJoin(fd, client, target, state);
    SameJoinReplies(s, t, client, ch);
  }

  lemma SameJoinReplies(s: State, t: State, c: Client, ch: ChanRec)
    requires s.clients == t.clients
    ensures JoinReplies(s, c, ch) == JoinReplies(t, c, ch)
  {
    SameMemberLine(s, t, ch, ch.members, "");
  }

  /** _joinSingleChannel */
  method JoinSingleChannel(fd: int, client: Client, name: string, key: string, state: ServerState)
    returns (result: seq<Reply>)
    requires state.Tidy() && client in state.clientsByFd.Values && client.socketFd == fd
    modifies state.Repr()
    ensures state.Shape() && state.Grown()
    ensures Out(state.View(), result) == JoinOne(old(state.View()), client, name, key)
  {
    hide JoinReplies, Apart, Created;
    Live(state, client);
    var valid := IsValidChannelName(name);
    state.NothingChanged();
    if !valid {
      return [Reply(fd, NumericFor(client, 403, name))];
    }
    var target := state.FindChannel(name);
    if target == null {
      result := JoinNew(fd, client, name, state);
      return;
    }
    MembersLive(state, name);
    var already := target.IsChannelMember(client);
    var refusal := Admission(client, target, key);
    state.NothingChanged();
    if already {
      return [];
    }
    if refusal != 0 {
      return [Reply(fd, NumericFor(client, refusal, name))];
    }
    result := JoinOld(fd, client, name, target, state);
  }

  function KeysFrom(keys: seq<string>, i: nat): seq<string> {
    if i < |keys| then keys[i..] else []
  }

  /** `all` is what is reached from `s`, with `before` already answered, by the names from `i` on. */
  ghost predicate JoinsLeft(all: Out, s: State, before: seq<Reply>, c: Client, names: seq<string>,
                            keys: seq<string>, i: nat)
    requires i <= |names|
  {
    var rest := JoinMany(s, c, names[i..], KeysFrom(keys, i));
    all == Out(rest.s, before + rest.r)
  }

  /** One turn of the fold over names and keys. */
  lemma JoinManyStep(all: Out, s: State, before: seq<Reply>, c: Client, names: seq<string>, keys: seq<string>, i: nat)
    requires i < |names| && JoinsLeft(all, s, before, c, names, keys, i)
    ensures var one := JoinOne(s, c, names[i], if i < |keys| then keys[i] else "");
      JoinsLeft(all, one.s, before + one.r, c, names, keys, i + 1)
  {
    assert names[i..][0] == names[i] && names[i..][1..] == names[i + 1..];
    var k := KeysFrom(keys, i);
    if i < |keys| {
      assert k[0] == keys[i] && k[1..] == KeysFrom(keys, i + 1);
    }
    var one := JoinOne(s, c, names[i], if i < |keys| then keys[i] else "");
    var rest := JoinMany(one.s, c, names[i + 1..], KeysFrom(keys, i + 1));
    assert before + (one.r + rest.r) == before + one.r + rest.r;
  }

  lemma JoinManyStart(s: State, c: Client, names: seq<string>, keys: seq<string>)
    ensures JoinsLeft(JoinMany(s, c, names, keys), s, [], c, names, keys, 0)
  {
    assert names[0..] == names && KeysFrom(keys, 0) == keys;
  }

  lemma JoinManyEnd(all: Out, s: State, before: seq<Reply>, c: Client, names: seq<string>, keys: seq<string>)
    requires JoinsLeft(all, s, before, c, names, keys, |names|)
    ensures all == Out(s, before)
  {
  }

  /** The loop of _handleJoin. */
  method JoinEach(fd: int, client: Client, names: seq<string>, keys: seq<string>, state: ServerState)
    returns (result: seq<Reply>)
    requires state.Tidy() && client in state.clientsByFd.Values && client.socketFd == fd
    modifies state.Repr()
    ensures state.Tidy() && state.Grown()
    ensures Out(state.View(), result) == JoinMany(old(state.View()), client, names, keys)
  {
    ghost var s := state.View();
    ghost var all := JoinMany(s, client, names, keys);
    result := [];
    JoinManyStart(s, client, names, keys);
    for i := 0 to |names|
      invariant state.Tidy() && state.Grown()
      invariant state.View().byFd == s.byFd
      invariant JoinsLeft(all, state.View(), result, client, names, keys, i)
    {
      var key := "";
      if i < |keys| {
        key := keys[i];
      }
      JoinManyStep(all, state.View(), result, client, names, keys, i);
      state.GrownRepr();
      result := JoinTurn(fd, client, names[i], key, state, result);
    }
    JoinManyEnd(all, state.View(), result, client, names, keys);
  }

  /** One turn of the loop of _handleJoin. */
  method JoinTurn(fd: int, client: Client, name: string, key: string, state: ServerState, before: seq<Reply>)
    returns (result: seq<Reply>)
    requires state.Tidy() && client in state.clientsByFd.Values && client.socketFd == fd
    modifies state.Repr()
    ensures state.Tidy() && state.Grown()
    ensures state.View().byFd == old(state.View()).byFd
    ensures Out(state.View(), result)
         == Out(JoinOne(old(state.View()), client, name, key).s,
                before + JoinOne(old(state.View()), client, name, key).r)
  {
    ghost var s := state.View();
    state.TidyView();
    JoinOneTidy(s, client, name, key);
    var one := JoinSingleChannel(fd, client, name, key, state);
    state.StaysTidy(s);
    result := before + one;
  }

  /** A JOIN touches one channel only, to which it adds the sender. */
  lemma JoinOneTidy(s: State, c: Client, name: string, key: string)
    requires TidyState(s) && c in s.byFd.Values
    ensures var t := JoinOne(s, c, name, key).s;
      && t.clients == s.clients && t.byFd == s.byFd && t.byNick == s.byNick
      && forall n | n in t.channels :: t.channels[n].members <= s.byFd.Values
  {
    hide Apart, JoinReplies, ValidChannelName, Refusal;
  }

  method HandleJoin(fd: int, msg: Message, state: ServerState) returns (result: seq<Reply>)
    requires state.Valid()
    modifies state.Repr()
    ensures state.Tidy() && state.Grown()
    ensures old(fd in state.clientsByFd ==> state.clientsByFd[fd].registered) ==> state.Valid()
    ensures fd in old(state.clientsByFd) ==>
      Out(state.View(), result) == Commands.Join(old(state.View()), old(state.clientsByFd)[fd], msg.params)
    ensures fd !in old(state.clientsByFd) ==> Out(state.View(), result) == Out(old(state.View()), [])
  {
    ghost var s := state.View();
    state.ValidIsTidy();
    var client := state.GetClientByFd(fd);
    if client == null {
      return [];
    }
    Live(state, client);
    if |msg.params| < 1 {
      return [Reply(fd, NumericFor(client, 461, "JOIN"))];
    }
    ghost var registered := client.registered;
    result := JoinLists(fd, client, msg.params, state);
    if registered {
      JoinKeeps(s, client, msg.params);
    }
  }

  /** _handleJoin once there is something to join. */
  method JoinLists(fd: int, client: Client, params: seq<string>, state: ServerState) returns (result: seq<Reply>)
    requires state.Tidy() && client in state.clientsByFd.Values && client.socketFd == fd && |params| >= 1
    modifies state.Repr()
    ensures state.Tidy() && state.Grown()
    ensures Out(state.View(), result) == Commands.Join(old(state.View()), client, params)
  {
    var names := SplitByComma(params[0]);
    var keys := [];
    if |params| > 1 {
      keys := SplitByComma(params[1]);
    }
    state.NothingChanged();
    result := JoinEach(fd, client, names, keys, state);
  }

  // ----- KICK -----------------------------------------------------------------------------------

  /** Taking a member out, and the channel with it when it was the last one. */
  method Expel(target: Client, name: string, channel: Channel, state: ServerState)
    requires state.Shape() && name in state.channels && state.channels[name] == channel
    modifies state`channels, channel
    ensures state.Shape() && state.Repr() <= old(state.Repr())
    ensures var s := old(state.View());
      state.View() == DropIfEmpty(s.WithChannel(name, s.channels[name].Without(target)), name)
  {
    assert state.View().channels[name] == channel.Rec();
    var removed := channel.RemoveClient(target);
    state.ChannelChanged(name);
    label left:
    var dropped := state.RemoveChannelIfEmpty(name);
    if dropped {
      state.ChannelDropped@left(name);
    } else {
      state.NothingChanged@left();
    }
  }

  /** The end of _kickSingleTarget, when everything is in order. */
  method KickMember(client: Client, target: Client, name: string, channel: Channel, reason: string, state: ServerState)
    returns (result: seq<Reply>)
    requires state.Shape() && client in state.clientsByFd.Values && target in state.clientsByFd.Values
    requires name in state.channels && state.channels[name] == channel && Apart(channel.members)
    modifies state`channels, channel
    ensures state.Shape() && state.Repr() <= old(state.Repr())
    ensures var s := old(state.View());
      && state.View() == DropIfEmpty(s.WithChannel(name, s.channels[name].Without(target)), name)
      && result == Deliver(s.channels[name].members, null,
                           Kicked(Prefix(s, client), name, TargetName(s.Rec(target).nickname), reason))
  {
    Live(state, client);
    Live(state, target);
    assert state.View().channels[name] == channel.Rec();
    result := BroadcastToChannel([], channel,
      Kicked(PrefixOf(client), name, TargetName(target.nickname), reason), null);
    state.NothingChanged();
    Expel(target, name, channel, state);
  }

  /** _kickSingleTarget */
  method KickSingleTarget(fd: int, client: Client, name: string, nick: string, reason: string, state: ServerState)
    returns (result: seq<Reply>)
    requires state.Tidy() && client in state.clientsByFd.Values && client.socketFd == fd
    modifies state, state.channels.Values
    ensures state.Shape() && state.Repr() <= old(state.Repr())
    ensures Out(state.View(), result) == KickOne(old(state.View()), client, name, nick, reason)
  {
    Live(state, client);
    if nick == "" {
      return [Reply(fd, NumericFor(client, 411, "KICK"))];
    }
    var channel := state.FindChannel(name);
    if channel == null {
      return [Reply(fd, NumericFor(client, 403, name))];
    }
    var target := state.GetClientByNick(nick);
    if target == null {
      return [Reply(fd, NumericFor(client, 401, nick))];
    }
    if client.nickname == "" {
      return [Reply(fd, NumericFor(client, 401, ""))];
    }
    MembersLive(state, name);
    var isMember := channel.IsChannelMember(client);
    var isOperator := channel.IsOperator(client);
    var targetIsMember := channel.IsChannelMember(target);
    state.NothingChanged();
    if !isMember {
      return [Reply(fd, NumericFor(client, 442, name))];
    }
    if !isOperator {
      return [Reply(fd, NumericFor(client, 482, name))];
    }
    if !targetIsMember {
      return [Reply(fd, NumericFor(client, 441, nick + " " + name))];
    }
    result := KickMember(client, target, name, channel, reason, state);
  }

  /** `all` is what is reached from `s`, with `before` already answered, by the nicks from `i` on. */
  ghost predicate KicksLeft(all: Out, s: State, before: seq<Reply>, c: Client, n: string, nicks: seq<string>,
                            reason: string,
                            i: nat)
    requires i <= |nicks|
  {
    var rest := KickMany(s, c, n, nicks[i..], reason);
    all == Out(rest.s, before + rest.r)
  }

  lemma KickManyStep(all: Out, s: State, before: seq<Reply>, c: Client, n: string, nicks: seq<string>, reason: string,
                     i: nat)
    requires i < |nicks| && KicksLeft(all, s, before, c, n, nicks, reason, i)
    ensures var one := KickOne(s, c, n, nicks[i], reason);
      KicksLeft(all, one.s, before + one.r, c, n, nicks, reason, i + 1)
  {
    assert nicks[i..][0] == nicks[i] && nicks[i..][1..] == nicks[i + 1..];
    var one := KickOne(s, c, n, nicks[i], reason);
    var rest := KickMany(one.s, c, n, nicks[i + 1..], reason);
    assert before + (one.r + rest.r) == before + one.r + rest.r;
  }

  lemma KickManyStart(s: State, c: Client, n: string, nicks: seq<string>, reason: string)
    ensures KicksLeft(KickMany(s, c, n, nicks, reason), s, [], c, n, nicks, reason, 0)
  {
    assert nicks[0..] == nicks;
  }

  lemma KickManyEnd(all: Out, s: State, before: seq<Reply>, c: Client, n: string, nicks: seq<string>, reason: string)
    requires KicksLeft(all, s, before, c, n, nicks, reason, |nicks|)
    ensures all == Out(s, before)
  {
  }

  /** One turn of the loop of _handleKick. */
  method KickTurn(fd: int, client: Client, name: string, nick: string, reason: string, state: ServerState,
                  before: seq<Reply>)
    returns (result: seq<Reply>)
    requires state.Valid() && client in state.clientsByFd.Values && client.socketFd == fd
    modifies state.Repr()
    ensures state.Valid() && state.Repr() <= old(state.Repr())
    ensures state.View().clients == old(state.View()).clients && state.View().byFd == old(state.View()).byFd
    ensures Out(state.View(), result)
         == Out(KickOne(old(state.View()), client, name, nick, reason).s,
                before + KickOne(old(state.View()), client, name, nick, reason).r)
  {
    ghost var s := state.View();
    state.ValidIsTidy();
    Live(state, client);
    KickOneInv(s, client, name, nick, reason);
    var one := KickSingleTarget(fd, client, name, nick, reason, state);
    result := before + one;
  }

  /** The loop of _handleKick. */
  method KickEach(fd: int, client: Client, name: string, nicks: seq<string>, reason: string, state: ServerState)
    returns (result: seq<Reply>)
    requires state.Valid() && client in state.clientsByFd.Values && client.socketFd == fd
    modifies state.Repr()
    ensures state.Valid() && state.Repr() <= old(state.Repr())
    ensures Out(state.View(), result) == KickMany(old(state.View()), client, name, nicks, reason)
  {
    ghost var s := state.View();
    ghost var all := KickMany(s, client, name, nicks, reason);
    result := [];
    KickManyStart(s, client, name, nicks, reason);
    for i := 0 to |nicks|
      invariant state.Valid() && state.Repr() <= old(state.Repr())
      invariant state.View().clients == s.clients && state.View().byFd == s.byFd
      invariant KicksLeft(all, state.View(), result, client, name, nicks, reason, i)
    {
      KickManyStep(all, state.View(), result, client, name, nicks, reason, i);
      result := KickTurn(fd, client, name, nicks[i], reason, state, result);
    }
    KickManyEnd(all, state.View(), result, client, name, nicks, reason);
  }

  method HandleKick(fd: int, msg: Message, state: ServerState) returns (result: seq<Reply>)
    requires state.Valid()
    modifies state.Repr()
    ensures state.Valid() && state.Repr() <= old(state.Repr())
    ensures fd in old(state.clientsByFd) ==>
      Out(state.View(), result) == Kick(old(state.View()), old(state.clientsByFd)[fd], msg.params)
    ensures fd !in old(state.clientsByFd) ==> Out(state.View(), result) == Out(old(state.View()), [])
  {
    hide KickMany, Apart;
    var client := state.GetClientByFd(fd);
    if client == null {
      return [];
    }
    state.ValidIsTidy();
    Live(state, client);
    if |msg.params| < 2 {
      return [Reply(fd, NumericFor(client, 461, "KICK"))];
    }
    var channelName := msg.params[0];
    var channel := state.FindChannel(channelName);
    if channel == null {
      return [Reply(fd, NumericFor(client, 403, channelName))];
    }
    var nicks := SplitByComma(msg.params[1]);
    state.NothingChanged();
    var reason := "";
    if |msg.params| > 2 {
      reason := msg.params[2];
    }
    if reason == "" {
      reason := client.nickname;
    }
    result := KickEach(fd, client, channelName, nicks, reason, state);
  }
}
