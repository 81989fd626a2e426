// src/handlePass.cpp, handleNick.cpp, handleUser.cpp, handleInvite.cpp, handleTopic.cpp and
// handlePrivMsg.cpp on the heap, each proved against its specification.
module Handlers {
  import opened Text
  import opened Parser
  import opened Clients
  import opened Channels
  import opened Replies
  import opened Model
  import opened Commands
  import opened ServerStates

  // ----- What every handler starts from -------------------------------------------------------

  /** The numeric that ReplyBuilder::numeric makes for a client. */
  function NumericFor(client: Client, num: nat, msg: string): Body
    reads client
  {
    Numeric(TargetName(client.nickname), num, msg)
  }

  function PrefixOf(client: Client): string
    reads client
  {
    BuildPrefix(client.nickname, client.username)
  }

  /** The record a handler reads through the object is the one in the view. */
  lemma Live(state: ServerState, client: Client)
    requires client in state.clientsByFd.Values
    ensures client in state.View().clients && state.View().Rec(client) == client.Rec()
  {
  }

  /** What a broadcast needs of a channel. */
  lemma MembersLive(state: ServerState, n: string)
    requires state.Tidy() && n in state.channels
    ensures state.channels[n].members <= state.clientsByFd.Values && Apart(state.channels[n].members)
    ensures state.View().channels[n] == state.channels[n].Rec()
  {
  }

  // ----- Broadcasting ---------------------------------------------------------------------------

  lemma FirstIs(it: Client, rest: set<Client>)
    requires IsFirst(it, rest) && Apart(rest)
    ensures First(rest) == it
  {
  }

  /** CommandDispatcher::_broadcastToChannel */
  method BroadcastToChannel(before: seq<Reply>, channel: Channel, message: Body, except: Client?)
    returns (result: seq<Reply>)
    requires Apart(channel.members)
    ensures result == before + Deliver(channel.members, except, message)
  {
    result := before;
    var rest := channel.members;
    while rest != {}
      invariant rest <= channel.members
      invariant result + Deliver(rest, except, message) == before + Deliver(channel.members, except, message)
    {
      FirstExists(rest);
      var it :| it in rest && IsFirst(it, rest);
      FirstIs(it, rest);
      ghost var tail := Deliver(rest - {it}, except, message);
      if it != except {
        assert Deliver(rest, except, message) == [Reply(it.socketFd, message)] + tail;
        assert result + ([Reply(it.socketFd, message)] + tail) == result + [Reply(it.socketFd, message)] + tail;
        result := result + [Reply(it.socketFd, message)];
      } else {
        assert Deliver(rest, except, message) == tail;
      }
      rest := rest - {it};
    }
  }

  // ----- PASS, NICK, USER -----------------------------------------------------------------------

  /** Client::tryRegister and the burst that every login command sends after it. */
  method TryRegister(fd: int, client: Client, state: ServerState) returns (result: seq<Reply>)
    requires client in state.clientsByFd.Values && client.socketFd == fd
    modifies client
    ensures Out(state.View(), result) == Register(old(state.View()), client)
  {
    result := [];
    assert state.View().Rec(client) == client.Rec();
    var done := client.TryRegister();
    state.ClientChanged(client);
    assert state.View().Rec(client) == client.Rec();
    if done {
      result := result + [Reply(fd, NumericFor(client, 1, ""))];
      result := result + [Reply(fd, NumericFor(client, 2, ""))];
      result := result + [Reply(fd, NumericFor(client, 3, ""))];
      result := result + [Reply(fd, NumericFor(client, 4, ""))];
    } else {
      assert old(state.View()).WithRec(client, client.Rec()) == old(state.View());
    }
  }

  method HandlePass(fd: int, msg: Message, state: ServerState) returns (result: seq<Reply>)
    requires state.Tidy()
    modifies state.clientsByFd.Values
    ensures state.SameObjects()
    ensures fd in old(state.clientsByFd) ==>
      Out(state.View(), result) == Pass(old(state.View()), old(state.clientsByFd)[fd], msg.params)
    ensures fd !in old(state.clientsByFd) ==> Out(state.View(), result) == Out(old(state.View()), [])
  {
    var client := state.GetClientByFd(fd);
    if client == null {
      return [];
    }
    Live(state, client);
    if |msg.params| < 1 {
      return [Reply(fd, NumericFor(client, 461, "PASS"))];
    }
    if client.registered {
      return [Reply(fd, NumericFor(client, 462, ""))];
    }
    if !state.IsCorrectPassword(msg.params[0]) {
      return [Reply(fd, NumericFor(client, 464, ""))];
    }
    client.AcceptPassword();
    state.ClientChanged(client);
    result := TryRegister(fd, client, state);
  }

  /** _isValidNick */
  method IsValidNick(nick: string) returns (valid: bool)
    ensures valid <==> ValidNick(nick)
  {
    if nick == "" {
      return false;
    }
    if !IsAlpha(nick[0]) && !LetterSpecial(nick[0]) {
      return false;
    }
    for i := 1 to |nick|
      invariant forall k | 0 <= k < i :: NickChar(nick[k])
    {
      if !IsAlpha(nick[i]) && !IsDigit(nick[i]) && !LetterSpecial(nick[i]) && nick[i] != '-' {
        assert nick[i] in nick;
        return false;
      }
    }
    return true;
  }

  /** The end of _handleNick: claim the nick, then try to register. */
  method ClaimNick(fd: int, client: Client, nick: string, state: ServerState) returns (result: seq<Reply>)
    requires state.Shape() && client in state.clientsByFd.Values && client.socketFd == fd
    modifies state`clientsByNick, client
    ensures state.Shape()
    ensures var (t, claimed) := UpdateNickname(old(state.View()), client, nick);
      Out(state.View(), result) == if claimed then Register(t, client) else Refuse(old(state.View()), client, 433, nick)
  {
    assert state.View().Rec(client) == client.Rec();
    var done := state.UpdateNickname(client, nick);
    if !done {
      return [Reply(fd, NumericFor(client, 433, nick))];
    }
    result := TryRegister(fd, client, state);
  }

  method HandleNick(fd: int, msg: Message, state: ServerState) returns (result: seq<Reply>)
    requires state.Tidy()
    modifies state`clientsByNick, state.clientsByFd.Values
    ensures state.SameObjects()
    ensures fd in old(state.clientsByFd) ==>
      Out(state.View(), result) == Nick(old(state.View()), old(state.clientsByFd)[fd], msg.params)
    ensures fd !in old(state.clientsByFd) ==> Out(state.View(), result) == Out(old(state.View()), [])
  {
    var client := state.GetClientByFd(fd);
    if client == null {
      return [];
    }
    ghost var was := state.View();
    Live(state, client);
    if |msg.params| < 1 {
      return [Reply(fd, NumericFor(client, 431, ""))];
    }
    var nick := msg.params[0];
    var valid := IsValidNick(nick);
    state.NothingChanged();
    if !valid {
      return [Reply(fd, NumericFor(client, 432, nick))];
    }
    if state.IsNicknameExist(nick) {
      var used := state.GetClientByNick(nick);
      if used != null && used != client {
        return [Reply(fd, NumericFor(client, 433, nick))];
      }
    }
    result := ClaimNick(fd, client, nick, state);
    assert Out(state.View(), result) == Nick(was, client, msg.params);
  }

  method HandleUser(fd: int, msg: Message, state: ServerState) returns (result: seq<Reply>)
    requires state.Tidy()
    modifies state.clientsByFd.Values
    ensures state.SameObjects()
    ensures fd in old(state.clientsByFd) ==>
      Out(state.View(), result) == User(old(state.View()), old(state.clientsByFd)[fd], msg.params)
    ensures fd !in old(state.clientsByFd) ==> Out(state.View(), result) == Out(old(state.View()), [])
  {
    var client := state.GetClientByFd(fd);
    if client == null {
      return [];
    }
    Live(state, client);
    if |msg.params| < 4 {
      return [Reply(fd, NumericFor(client, 461, "USER"))];
    }
    if client.registered {
      return [Reply(fd, NumericFor(client, 462, ""))];
    }
    client.SetUserName(msg.params[0]);
    client.SetRealName(msg.params[3]);
    state.ClientChanged(client);
    result := TryRegister(fd, client, state);
  }

  // ----- INVITE, TOPIC --------------------------------------------------------------------------

  method HandleInvite(fd: int, msg: Message, state: ServerState) returns (result: seq<Reply>)
    requires state.Tidy()
    modifies state.channels.Values
    ensures state.SameObjects()
    ensures fd in old(state.clientsByFd) ==>
      Out(state.View(), result) == Invite(old(state.View()), old(state.clientsByFd)[fd], msg.params)
    ensures fd !in old(state.clientsByFd) ==> Out(state.View(), result) == Out(old(state.View()), [])
  {
    var client := state.GetClientByFd(fd);
    if client == null {
      return [];
    }
    Live(state, client);
    if |msg.params| < 2 {
      return [Reply(fd, NumericFor(client, 461, "INVITE"))];
    }
    var channelName := msg.params[1];
    var channel := state.FindChannel(channelName);
    if channel == null {
      return [Reply(fd, NumericFor(client, 403, channelName))];
    }
    MembersLive(state, channelName);
    var isMember := channel.IsChannelMember(client);
    var isOperator := channel.IsOperator(client);
    state.NothingChanged();
    if !isMember {
      return [Reply(fd, NumericFor(client, 442, channelName))];
    }
    if !isOperator {
      return [Reply(fd, NumericFor(client, 482, channelName))];
    }
    var nick := msg.params[0];
    var target := state.GetClientByNick(nick);
    if target == null {
      return [Reply(fd, NumericFor(client, 401, nick))];
    }
    ghost var was := state.View();
    Live(state, target);
    result := InviteTarget(client, target, nick, channelName, channel, state);
    assert Out(state.View(), result) == Invite(was, client, msg.params);
  }

  /** Channel::addInvitedMember, as the state sees it. */
  method AddInvitation(target: Client, channelName: string, channel: Channel, state: ServerState) returns (added: bool)
    requires state.Shape() && channelName in state.channels && state.channels[channelName] == channel
    modifies channel
    ensures added <==> target !in old(channel.invited)
    ensures var s := old(state.View());
      var ch := s.channels[channelName];
      state.View() == s.WithChannel(channelName, ch.(invited := ch.invited + {target}))
    ensures !added ==> state.View() == old(state.View())
  {
    ghost var s := state.View();
    added := channel.AddInvitedMember(target);
    state.ChannelChanged(channelName);
    if !added {
      assert channel.Rec() == s.channels[channelName];
    }
  }

  /** The end of _handleInvite, for an operator and an existing nick. */
  method InviteTarget(client: Client, target: Client, nick: string, channelName: string, channel: Channel,
                      state: ServerState)
    returns (result: seq<Reply>)
    requires state.Shape() && client in state.clientsByFd.Values && target in state.clientsByFd.Values
    requires channelName in state.channels && state.channels[channelName] == channel
    requires nick in state.clientsByNick && state.clientsByNick[nick] == target
    modifies channel
    ensures Out(state.View(), result) == InviteNick(old(state.View()), client, channelName, nick)
  {
    ghost var was := state.View();
    Live(state, client);
    Live(state, target);
    assert was.channels[channelName] == channel.Rec();
    var already := channel.IsChannelMember(target);
    state.NothingChanged();
    if already {
      return [Reply(client.socketFd, NumericFor(client, 443, nick + " " + channelName))];
    }
    var added := AddInvitation(target, channelName, channel, state);
    if !added {
      return [];
    }
    result := [Reply(client.socketFd, NumericFor(client, 341, nick + " " + channelName))];
    result := result + [Reply(target.socketFd, Invited(PrefixOf(client), TargetName(target.nickname), channelName))];
  }

  /** _notifyTopic, which _handleTopic repeats. */
  method ReplyTopic(fd: int, client: Client, channel: Channel) returns (result: seq<Reply>)
    ensures result == [Reply(fd, if channel.topic == "" then NumericFor(client, 331, channel.name)
                                 else NumericFor(client, 332, channel.name + " :" + channel.topic))]
  {
    if channel.topic == "" {
      return [Reply(fd, NumericFor(client, 331, channel.name))];
    } else {
      return [Reply(fd, NumericFor(client, 332, channel.name + " :" + channel.topic))];
    }
  }

  method HandleTopic(fd: int, msg: Message, state: ServerState) returns (result: seq<Reply>)
    requires state.Tidy()
    modifies state.channels.Values
    ensures state.SameObjects()
    ensures fd in old(state.clientsByFd) ==>
      Out(state.View(), result) == Topic(old(state.View()), old(state.clientsByFd)[fd], msg.params)
    ensures fd !in old(state.clientsByFd) ==> Out(state.View(), result) == Out(old(state.View()), [])
  {
    hide SetTopic, Apart;
    var client := state.GetClientByFd(fd);
    if client == null {
      return [];
    }
    Live(state, client);
    if |msg.params| < 1 {
      return [Reply(fd, NumericFor(client, 461, "TOPIC"))];
    }
    var channelName := msg.params[0];
    var channel := state.FindChannel(channelName);
    if channel == null {
      return [Reply(fd, NumericFor(client, 403, channelName))];
    }
    MembersLive(state, channelName);
    var isMember := channel.IsChannelMember(client);
    var isOperator := channel.IsOperator(client);
    state.NothingChanged();
    if !isMember {
      return [Reply(fd, NumericFor(client, 442, channelName))];
    }
    if |msg.params| == 1 {
      result := ReplyTopic(fd, client, channel);
      state.NothingChanged();
      return;
    }
    if channel.modes.topicRestricted && !isOperator {
      return [Reply(fd, NumericFor(client, 482, channelName))];
    }
    ghost var was := state.View();
    result := SetTopicOf(client, channelName, channel, msg.params[1], state);
    assert Out(state.View(), result) == Topic(was, client, msg.params);
  }

  /** The end of _handleTopic: set the topic and tell every member. */
  method SetTopicOf(client: Client, channelName: string, channel: Channel, topic: string, state: ServerState)
    returns (result: seq<Reply>)
    requires state.Shape() && client in state.clientsByFd.Values && Apart(channel.members)
    requires channelName in state.channels && state.channels[channelName] == channel
    modifies channel
    ensures Out(state.View(), result) == SetTopic(old(state.View()), client, channelName, topic)
  {
    assert state.View().Rec(client) == client.Rec() && state.View().channels[channelName] == channel.Rec();
    channel.SetChannelTopic(topic);
    state.ChannelChanged(channelName);
    label topicSet:
    result := BroadcastToChannel([], channel, TopicSet(PrefixOf(client), channelName, topic), null);
    state.NothingChanged@topicSet();
  }

  // ----- PRIVMSG ----------------------------------------------------------------------------------

  method SendPrivMsgToTarget(fd: int, client: Client, target: string, text: string, state: ServerState)
    returns (result: seq<Reply>)
    requires state.Tidy() && client in state.clientsByFd.Values && client.socketFd == fd
    ensures result == SendOne(state.View(), client, target, text)
  {
    Live(state, client);
    if target == "" {
      return [Reply(fd, NumericFor(client, 411, "PRIVMSG"))];
    }
    if target[0] == '#' {
      var channel := state.FindChannel(target);
      if channel == null {
        return [Reply(fd, NumericFor(client, 403, target))];
      }
      MembersLive(state, target);
      var isMember := channel.IsChannelMember(client);
      if !isMember {
        result := [Reply(fd, NumericFor(client, 404, target))];
        state.NothingChanged();
        return;
      }
      result := BroadcastToChannel([], channel, PrivMsg(PrefixOf(client), target, text), client);
      state.NothingChanged();
    } else {
      var targetClient := state.GetClientByNick(target);
      if targetClient == null {
        return [Reply(fd, NumericFor(client, 401, target))];
      }
      return [Reply(targetClient.socketFd, PrivMsg(PrefixOf(client), target, text))];
    }
  }

  method HandlePrivMsg(fd: int, msg: Message, state: ServerState) returns (result: seq<Reply>)
    requires state.Tidy()
    ensures fd in state.clientsByFd ==>
      Out(state.View(), result) == PrivMsgCmd(state.View(), state.clientsByFd[fd], msg.params)
    ensures fd !in state.clientsByFd ==> result == []
  {
    var client := state.GetClientByFd(fd);
    if client == null {
      return [];
    }
    Live(state, client);
    if |msg.params| < 1 {
      return [Reply(fd, NumericFor(client, 411, "PRIVMSG"))];
    }
    if |msg.params| < 2 || msg.params[1] == "" {
      return [Reply(fd, NumericFor(client, 412, ""))];
    }
    var targets := SplitByComma(msg.params[0]);
    var text := msg.params[1];
    result := SendToAll(fd, client, targets, text, state);
    state.NothingChanged();
  }

  /** The loop of _handlePrivMsg. */
  method SendToAll(fd: int, client: Client, targets: seq<string>, text: string, state: ServerState)
    returns (result: seq<Reply>)
    requires state.Tidy() && client in state.clientsByFd.Values && client.socketFd == fd
    ensures result == SendMany(state.View(), client, targets, text)
  {
    ghost var s := state.View();
    result := [];
    for i := 0 to |targets|
      invariant state.Tidy() && state.View() == s && client in state.clientsByFd.Values
      invariant result + SendMany(s, client, targets[i..], text) == SendMany(s, client, targets, text)
    {
      label turn:
      var one := SendPrivMsgToTarget(fd, client, targets[i], text, state);
      state.NothingChanged@turn();
      SendManyStep(s, client, targets, text, i, result);
      result := result + one;
    }
    state.NothingChanged();
    assert targets[|targets|..] == [];
  }

  lemma SendManyStep(s: State, c: Client, targets: seq<string>, text: string, i: nat, before: seq<Reply>)
    requires i < |targets|
    ensures before + SendMany(s, c, targets[i..], text)
         == before + SendOne(s, c, targets[i], text) + SendMany(s, c, targets[i + 1..], text)
  {
    assert targets[i..][0] == targets[i] && targets[i..][1..] == targets[i + 1..];
    var one, rest := SendOne(s, c, targets[i], text), SendMany(s, c, targets[i + 1..], text);
    assert before + (one + rest) == before + one + rest;
  }

  /** _splitByComma */
  method SplitByComma(target: string) returns (result: seq<string>)
    ensures result == Split(target, ',')
  {
    result := [];
    var start := 0;
    for i := 0 to |target|
      invariant 0 <= start <= i
      invariant Free(target[start..i], ',')
      invariant result + Split(target[start..], ',') == Split(target, ',')
    {
      if target[i] == ',' {
        SplitAt(target, start, i, result);
        result := result + [target[start..i]];
        start := i + 1;
      } else {
        assert target[start..i + 1] == target[start..i] + [target[i]];
      }
    }
    assert target[start..|target|] == target[start..];
    SplitNone(target[start..], ',');
    result := result + [target[start..]];
  }

  lemma SplitAt(target: string, start: nat, i: nat, before: seq<string>)
    requires start <= i < |target| && target[i] == ',' && Free(target[start..i], ',')
    ensures before + Split(target[start..], ',') == before + [target[start..i]] + Split(target[i + 1..], ',')
  {
    SplitHead(target[start..i], target[i + 1..], ',');
    assert target[start..] == target[start..i] + [','] + target[i + 1..];
    var piece, rest := [target[start..i]], Split(target[i + 1..], ',');
    assert before + (piece + rest) == before + piece + rest;
  }

  // ----- PING, CAP and what is left ------------------------------------------------------------------

  method HandlePing(fd: int, msg: Message, state: ServerState) returns (result: seq<Reply>)
    requires state.Tidy()
    ensures fd in state.clientsByFd ==>
      Out(state.View(), result) == Ping(state.View(), state.clientsByFd[fd], msg.params)
    ensures fd !in state.clientsByFd ==> result == []
  {
    var client := state.GetClientByFd(fd);
    if client == null {
      return [];
    }
    Live(state, client);
    return [Reply(fd, Pong(if msg.params == [] then "ircServ" else msg.params[0]))];
  }

  method HandleCap(fd: int, msg: Message, state: ServerState) returns (result: seq<Reply>)
    requires state.Tidy()
    ensures fd in state.clientsByFd ==>
      Out(state.View(), result) == CapCmd(state.View(), state.clientsByFd[fd], msg.params)
    ensures fd !in state.clientsByFd ==> result == []
  {
    var client := state.GetClientByFd(fd);
    if client == null {
      return [];
    }
    Live(state, client);
    if |msg.params| < 1 {
      return [];
    }
    if msg.params[0] == "LS" {
      return [Reply(fd, Cap(TargetName(client.nickname), " LS :"))];
    } else if msg.params[0] == "REQ" {
      var requested := if |msg.params| > 1 then msg.params[1] else "";
      return [Reply(fd, Cap(TargetName(client.nickname), " NAK :" + requested))];
    }
    return [];
  }

  method HandleInvalidCommand(fd: int, msg: Message, state: ServerState) returns (result: seq<Reply>)
    requires state.Tidy()
    ensures fd in state.clientsByFd ==>
      Out(state.View(), result) == Refuse(state.View(), state.clientsByFd[fd], 421, msg.command)
    ensures fd !in state.clientsByFd ==> result == []
  {
    var client := state.GetClientByFd(fd);
    if client == null {
      return [];
    }
    Live(state, client);
    return [Reply(fd, NumericFor(client, 421, msg.command))];
  }
}
