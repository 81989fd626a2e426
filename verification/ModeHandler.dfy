// src/handleMode.cpp on the heap: the loop that walks the mode string, changes the channel in
// place and builds the announcement beside it.
module ModeHandler {
  import opened Text
  import opened Parser
  import opened Clients
  import opened Channels
  import opened Replies
  import opened Model
  import opened Mode
  import opened Commands
  import opened ServerStates
  import opened Handlers

  /** `t` is what the interpreter makes of `r`, in terms of the variables of one turn of the loop. */
  predicate Took(r: Run, t: Run, ch: ChanRec, x: char, changed: bool, param: string, next: nat, said: seq<Reply>) {
    t == Run(ch, r.adding, next, r.events + (if changed then [Event(r.adding, x, param)] else []), r.replies + said)
  }

  // ----- The cases of the switch -----------------------------------------------------------------

  method InviteOnlyTurn(channel: Channel, adding: bool) returns (modeChanged: bool)
    modifies channel.modes
    ensures modeChanged <==> adding != old(channel.modes.inviteOnly)
    ensures channel.modes.Rec() == old(channel.modes.Rec()).(inviteOnly := adding)
  {
    modeChanged := false;
    if adding && !channel.modes.inviteOnly {
      channel.modes.SetInviteOnly(true);
      modeChanged := true;
    } else if !adding && channel.modes.inviteOnly {
      channel.modes.SetInviteOnly(false);
      modeChanged := true;
    }
  }

  method TopicTurn(channel: Channel, adding: bool) returns (modeChanged: bool)
    modifies channel.modes
    ensures modeChanged <==> adding != old(channel.modes.topicRestricted)
    ensures channel.modes.Rec() == old(channel.modes.Rec()).(topicRestricted := adding)
  {
    modeChanged := false;
    if adding && !channel.modes.topicRestricted {
      channel.modes.SetTopicRestricted(true);
      modeChanged := true;
    } else if !adding && channel.modes.topicRestricted {
      channel.modes.SetTopicRestricted(false);
      modeChanged := true;
    }
  }

  method KeyTurn(channel: Channel, params: seq<string>, adding: bool, paramIndex: nat, ghost r: Run)
    returns (modeChanged: bool, modeParam: string, next: nat)
    requires r.ch == channel.Rec() && r.adding == adding && r.cursor == paramIndex
    modifies channel.modes
    ensures Took(r, Key(params, r), channel.Rec(), 'k', modeChanged, modeParam, next, [])
  {
    modeChanged, modeParam, next := false, "", paramIndex;
    if adding {
      if paramIndex < |params| {
        modeParam, next := params[paramIndex], paramIndex + 1;
        channel.modes.SetChannelProtected(modeParam);
        modeChanged := true;
      }
    } else {
      if channel.modes.channelProtected {
        channel.modes.UnsetChannelProtected();
        modeChanged := true;
        if paramIndex < |params| {
          next := paramIndex + 1;
        }
      }
    }
  }

  method LimitTurn(channel: Channel, params: seq<string>, adding: bool, paramIndex: nat, ghost r: Run)
    returns (modeChanged: bool, modeParam: string, next: nat)
    requires r.ch == channel.Rec() && r.adding == adding && r.cursor == paramIndex
    modifies channel.modes
    ensures Took(r, Limit(params, r), channel.Rec(), 'l', modeChanged, modeParam, next, [])
  {
    modeChanged, modeParam, next := false, "", paramIndex;
    if adding {
      if paramIndex < |params| {
        modeParam, next := params[paramIndex], paramIndex + 1;
        var limit := Atoi(modeParam);
        if limit > 0 {
          channel.modes.SetMemberLimit(limit);
          modeChanged := true;
        }
      }
    } else {
      if channel.modes.memberLimited {
        channel.modes.UnsetMemberLimit();
        modeChanged := true;
      }
    }
  }

  /** What the interpreter reads of the server besides the channel. */
  ghost predicate Reads(s: State, state: ServerState, client: Client)
    reads state, client
  {
    s.byNick == state.clientsByNick && s.Rec(client).nickname == client.nickname
  }

  method OperatorTurn(client: Client, channel: Channel, params: seq<string>, adding: bool, paramIndex: nat,
                      state: ServerState, ghost s: State, ghost r: Run)
    returns (modeChanged: bool, modeParam: string, next: nat, said: seq<Reply>)
    requires r.ch == channel.Rec() && r.adding == adding && r.cursor == paramIndex && Reads(s, state, client)
    modifies channel
    ensures Took(r, Op(s, client, params, r), channel.Rec(), 'o', modeChanged, modeParam, next, said)
  {
    modeChanged, modeParam, next, said := false, "", paramIndex, [];
    if paramIndex < |params| {
      modeParam, next := params[paramIndex], paramIndex + 1;
      var target := state.GetClientByNick(modeParam);
      if target == null {
        said := [Reply(client.socketFd, NumericFor(client, 401, modeParam))];
        return;
      }
      var isMember := channel.IsChannelMember(target);
      if isMember {
        if adding {
          modeChanged := channel.AddOperator(target);
        } else {
          modeChanged := channel.RemoveOperator(target);
        }
      } else {
        said := [Reply(client.socketFd, NumericFor(client, 441, modeParam + " " + channel.name))];
      }
    }
  }

  /** The switch. */
  method ModeTurn(x: char, client: Client, channel: Channel, params: seq<string>, adding: bool, paramIndex: nat,
                  state: ServerState, ghost s: State, ghost r: Run)
    returns (modeChanged: bool, modeParam: string, next: nat, said: seq<Reply>)
    requires x != '+' && x != '-'
    requires r.ch == channel.Rec() && r.adding == adding && r.cursor == paramIndex && Reads(s, state, client)
    modifies channel, channel.modes
    ensures Took(r, Turn(s, client, params, r, x), channel.Rec(), x, modeChanged, modeParam, next, said)
  {
    modeChanged, modeParam, next, said := false, "", paramIndex, [];
    match x {
      case 'i' => modeChanged := InviteOnlyTurn(channel, adding);
      case 't' => modeChanged := TopicTurn(channel, adding);
      case 'k' => modeChanged, modeParam, next := KeyTurn(channel, params, adding, paramIndex, r);
      case 'l' => modeChanged, modeParam, next := LimitTurn(channel, params, adding, paramIndex, r);
      case 'o' =>
        modeChanged, modeParam, next, said := OperatorTurn(client, channel, params, adding, paramIndex, state, s, r);
      case _ => said := [Reply(client.socketFd, NumericFor(client, 472, [x]))];
    }
  }

  // ----- The announcement --------------------------------------------------------------------------

  /** The variables that hold the announcement of `events` so far. */
  predicate Announces(finalModes: string, finalParams: string, lastSign: char, events: seq<Event>) {
    && finalModes == Letters(events, NO_SIGN)
    && finalParams == ParamTail(events)
    && lastSign == SignAfter(events, NO_SIGN)
  }

  /** The end of one turn: write the change down, if there was one. */
  method Record(finalModes: string, finalParams: string, lastSign: char, modeChanged: bool, x: char, modeParam: string,
                adding: bool, ghost events: seq<Event>)
    returns (modes: string, params: string, sign: char)
    requires Announces(finalModes, finalParams, lastSign, events)
    ensures Announces(modes, params, sign, events + if modeChanged then [Event(adding, x, modeParam)] else [])
  {
    modes, params, sign := finalModes, finalParams, lastSign;
    if modeChanged {
      ghost var e := Event(adding, x, modeParam);
      LettersAppend(events, e, NO_SIGN);
      ParamTailAppend(events, e);
      var currentSign := if adding then '+' else '-';
      if currentSign != sign {
        modes := modes + [currentSign];
        sign := currentSign;
      }
      modes := modes + [x];
      if modeParam != "" {
        params := params + (" " + modeParam);
      }
      assert modes == finalModes + Letter(e, lastSign);
    } else {
      assert events + [] == events;
    }
  }

  lemma LettersEmpty(events: seq<Event>)
    ensures Letters(events, NO_SIGN) == "" <==> events == []
  {
  }

  // ----- The loop ------------------------------------------------------------------------------------

  /** The loop over the mode string, on the channel and on the announcement. */
  method WalkModes(client: Client, channel: Channel, params: seq<string>, state: ServerState, ghost s: State)
    returns (result: seq<Reply>, finalModes: string, finalParams: string)
    requires |params| > 1 && Reads(s, state, client)
    modifies channel, channel.modes
    ensures var run := Interpret(s, client, params, Start(old(channel.Rec())), params[1]);
      && channel.Rec() == run.ch && result == run.replies
      && finalModes == Letters(run.events, NO_SIGN) && finalParams == ParamTail(run.events)
  {
    var modeString := params[1];
    var adding := true;
    var paramIndex := 2;
    var lastSign := NO_SIGN;
    result, finalModes, finalParams := [], "", "";
    ghost var start := Start(channel.Rec());
    ghost var r := start;
    assert modeString[..0] == "";
    for i := 0 to |modeString|
      invariant r == Interpret(s, client, params, start, modeString[..i])
      invariant r.ch == channel.Rec() && r.adding == adding && r.cursor == paramIndex && r.replies == result
      invariant Announces(finalModes, finalParams, lastSign, r.events)
    {
      var x := modeString[i];
      assert modeString[..i + 1] == modeString[..i] + [x];
      InterpretStep(s, client, params, start, modeString[..i], x);
      ghost var t := Turn(s, client, params, r, x);
      if x == '+' {
        adding := true;
      } else if x == '-' {
        adding := false;
      } else {
        var modeChanged, modeParam, next, said :=
          ModeTurn(x, client, channel, params, adding, paramIndex, state, s, r);
        paramIndex := next;
        result := result + said;
        finalModes, finalParams, lastSign :=
          Record(finalModes, finalParams, lastSign, modeChanged, x, modeParam, adding, r.events);
      }
      r := t;
    }
    assert modeString[..|modeString|] == modeString;
  }

  /** _handleMode for an operator: the loop, and the broadcast when anything changed. */
  method ChangeModes(client: Client, name: string, channel: Channel, params: seq<string>, state: ServerState)
    returns (result: seq<Reply>)
    requires state.Shape() && client in state.clientsByFd.Values && Apart(channel.members) && |params| > 1
    requires name in state.channels && state.channels[name] == channel
    modifies channel, channel.modes
    ensures Out(state.View(), result) == ModeChanges(old(state.View()), client, name, params)
  {
    ghost var s := state.View();
    Live(state, client);
    assert s.channels[name] == channel.Rec();
    var finalModes, finalParams;
    result, finalModes, finalParams := WalkModes(client, channel, params, state, s);
    ghost var run := Interpret(s, client, params, Start(s.channels[name]), params[1]);
    state.ChannelChanged(name);
    InterpretFrame(s, client, params, Start(s.channels[name]), params[1]);
    LettersEmpty(run.events);
    label changed:
    if finalModes != "" {
      var fullModeStr := finalModes + finalParams;
      result := BroadcastToChannel(result, channel, ModeSet(PrefixOf(client), name, fullModeStr), null);
      state.NothingChanged@changed();
    }
  }

  /** The answer to a MODE without a mode string. */
  method ModeLetters(modes: ChannelModes) returns (currentModes: string)
    ensures currentModes == CurrentModes(modes.Rec())
  {
    currentModes := "+";
    if modes.inviteOnly {
      currentModes := currentModes + "i";
    }
    if modes.topicRestricted {
      currentModes := currentModes + "t";
    }
    if modes.channelProtected {
      currentModes := currentModes + "k";
    }
    if modes.memberLimited {
      currentModes := currentModes + "l";
    }
  }

  method HandleMode(fd: int, msg: Message, state: ServerState) returns (result: seq<Reply>)
    requires state.Tidy()
    modifies state.channels.Values, state.ModeObjects()
    ensures state.SameObjects()
    ensures fd in old(state.clientsByFd) ==>
      Out(state.View(), result) == ModeCmd(old(state.View()), old(state.clientsByFd)[fd], msg.params)
    ensures fd !in old(state.clientsByFd) ==> Out(state.View(), result) == Out(old(state.View()), [])
  {
    hide ModeChanges, Apart;
    var client := state.GetClientByFd(fd);
    if client == null {
      return [];
    }
    Live(state, client);
    if |msg.params| < 1 {
      return [Reply(fd, NumericFor(client, 461, "MODE"))];
    }
    var name := msg.params[0];
    var channel := state.FindChannel(name);
    if channel == null {
      return [Reply(fd, NumericFor(client, 403, name))];
    }
    MembersLive(state, name);
    if |msg.params| == 1 {
      var currentModes := ModeLetters(channel.modes);
      state.NothingChanged();
      return [Reply(fd, NumericFor(client, 324, name + " " + currentModes))];
    }
    var isMember := channel.IsChannelMember(client);
    var isOperator := channel.IsOperator(client);
    state.NothingChanged();
    if !isMember {
      return [Reply(fd, NumericFor(client, 442, name))];
    }
    if !isOperator {
      return [Reply(fd, NumericFor(client, 482, name))];
    }
    ghost var was := state.View();
    result := ChangeModes(client, name, channel, msg.params, state);
    assert Out(state.View(), result) == ModeCmd(was, client, msg.params);
  }
}
