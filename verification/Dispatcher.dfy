// src/CommandDispatcher.cpp on the heap: from a message to its handler.
module Dispatcher {
  import opened Parser
  import opened Replies
  import opened Model
  import opened Commands
  import opened Safety
  import opened ServerStates
  import opened Handlers
  import opened ModeHandler
  import opened JoinKick

  /** _cmdNameToNumber */
  method CmdNameToNumber(cmd: string) returns (number: Command)
    ensures number == CommandOf(cmd)
  {
    for i := 0 to |CMDS|
      invariant Lookup(CMDS[i..], cmd) == CommandOf(cmd)
    {
      if CMDS[i].0 == cmd {
        return CMDS[i].1;
      }
    }
    return CmdInvalid;
  }

  /** What a handler comes to: the specification of its command, or nothing for an unknown fd. */
  ghost function Outcome(s: State, fd: int, cmd: Command, msg: Message): Out {
    if fd in s.byFd then Execute(s, s.byFd[fd], cmd, msg) else Out(s, [])
  }

  /** The handlers that keep every object in its place. */
  method CallInPlace(fd: int, cmd: Command, msg: Message, state: ServerState) returns (result: seq<Reply>)
    requires state.Valid()
    requires cmd.CmdPass? || cmd.CmdNick? || cmd.CmdUser? || cmd.CmdInvite? || cmd.CmdTopic? || cmd.CmdMode?
    modifies state.Repr()
    ensures state.Shape() && state.Grown()
    ensures Out(state.View(), result) == Outcome(old(state.View()), fd, cmd, msg)
  {
    ghost var s := state.View();
    state.ValidIsTidy();
    match cmd {
      case CmdPass =>
        result := HandlePass(fd, msg, state);
        assert fd in s.byFd ==> Execute(s, s.byFd[fd], cmd, msg) == Pass(s, s.byFd[fd], msg.params);
      case CmdNick =>
        result := HandleNick(fd, msg, state);
        assert fd in s.byFd ==> Execute(s, s.byFd[fd], cmd, msg) == Nick(s, s.byFd[fd], msg.params);
      case CmdUser =>
        result := HandleUser(fd, msg, state);
        assert fd in s.byFd ==> Execute(s, s.byFd[fd], cmd, msg) == User(s, s.byFd[fd], msg.params);
      case CmdInvite =>
        result := HandleInvite(fd, msg, state);
        assert fd in s.byFd ==> Execute(s, s.byFd[fd], cmd, msg) == Invite(s, s.byFd[fd], msg.params);
      case CmdTopic =>
        result := HandleTopic(fd, msg, state);
        assert fd in s.byFd ==> Execute(s, s.byFd[fd], cmd, msg) == Topic(s, s.byFd[fd], msg.params);
      case CmdMode =>
        result := HandleMode(fd, msg, state);
        assert fd in s.byFd ==> Execute(s, s.byFd[fd], cmd, msg) == ModeCmd(s, s.byFd[fd], msg.params);
    }
    state.SameObjectsKept();
  }

  /** The handlers that change nothing. */
  method CallReadOnly(fd: int, cmd: Command, msg: Message, state: ServerState) returns (result: seq<Reply>)
    requires state.Valid()
    requires cmd.CmdPrivMsg? || cmd.CmdPing? || cmd.CmdCap? || cmd.CmdInvalid?
    ensures Out(state.View(), result) == Outcome(state.View(), fd, cmd, msg)
    ensures state.View() == old(state.View())
  {
    state.ValidIsTidy();
    match cmd {
      case CmdPrivMsg => result := HandlePrivMsg(fd, msg, state);
      case CmdPing => result := HandlePing(fd, msg, state);
      case CmdCap => result := HandleCap(fd, msg, state);
      case CmdInvalid => result := HandleInvalidCommand(fd, msg, state);
    }
    state.NothingChanged();
  }

  /** The switch of dispatch. */
  method Call(fd: int, cmd: Command, msg: Message, state: ServerState) returns (result: seq<Reply>)
    requires state.Valid()
    modifies state.Repr()
    ensures state.Shape() && fresh(state.Repr() - old(state.Repr()))
    ensures Out(state.View(), result) == Outcome(old(state.View()), fd, cmd, msg)
  {
    match cmd {
      case CmdJoin =>
        result := HandleJoin(fd, msg, state);
        state.GrownRepr();
      case CmdKick => result := HandleKick(fd, msg, state);
      case CmdPrivMsg => result := CallReadOnly(fd, cmd, msg, state);
      case CmdPing => result := CallReadOnly(fd, cmd, msg, state);
      case CmdCap => result := CallReadOnly(fd, cmd, msg, state);
      case CmdInvalid => result := CallReadOnly(fd, cmd, msg, state);
      case _ =>
        result := CallInPlace(fd, cmd, msg, state);
        state.GrownRepr();
    }
  }

  lemma DispatchCalls(s: State, fd: int, msg: Message)
    requires Inv(s)
    requires fd in s.byFd && !OpenToAll(CommandOf(msg.command)) ==> s.Rec(s.byFd[fd]).registered
    ensures Commands.Dispatch(s, fd, msg) == Outcome(s, fd, CommandOf(msg.command), msg)
    ensures Inv(Outcome(s, fd, CommandOf(msg.command), msg).s)
  {
    DispatchInv(s, fd, msg);
  }

  lemma DispatchRefuses(s: State, fd: int, msg: Message)
    requires fd in s.byFd && !OpenToAll(CommandOf(msg.command)) && !s.Rec(s.byFd[fd]).registered
    ensures Commands.Dispatch(s, fd, msg) == Refuse(s, s.byFd[fd], 451, msg.command)
  {
  }

  /** The gate of dispatch: an unregistered client may only use the open commands. */
  method Gate(fd: int, cmd: Command, msg: Message, state: ServerState) returns (refused: bool, result: seq<Reply>)
    requires state.Valid() && cmd == CommandOf(msg.command)
    ensures state.View() == old(state.View())
    ensures refused ==> Out(state.View(), result) == Commands.Dispatch(state.View(), fd, msg)
    ensures !refused && fd in state.clientsByFd && !OpenToAll(cmd) ==> state.clientsByFd[fd].registered
  {
    state.ValidIsTidy();
    hide Inv, Commands.Dispatch, CommandOf;
    refused, result := false, [];
    if !cmd.CmdPass? && !cmd.CmdNick? && !cmd.CmdUser? && !cmd.CmdCap? && !cmd.CmdInvalid? {
      var client := state.GetClientByFd(fd);
      if client != null && !client.registered {
        Live(state, client);
        DispatchRefuses(state.View(), fd, msg);
        refused, result := true, [Reply(fd, NumericFor(client, 451, msg.command))];
      }
    }
  }

  /** The switch, for a message that has got past the gate. */
  method Proceed(fd: int, cmd: Command, msg: Message, state: ServerState) returns (result: seq<Reply>)
    requires state.Valid() && cmd == CommandOf(msg.command)
    requires fd in state.clientsByFd && !OpenToAll(cmd) ==> state.clientsByFd[fd].registered
    modifies state.Repr()
    ensures state.Valid() && fresh(state.Repr() - old(state.Repr()))
    ensures Out(state.View(), result) == Commands.Dispatch(old(state.View()), fd, msg)
  {
    hide Inv, Commands.Dispatch, Outcome, CommandOf, OpenToAll;
    DispatchCalls(state.View(), fd, msg);
    result := Call(fd, cmd, msg, state);
  }

  /** CommandDispatcher::dispatch keeps the server valid and does what the specification says. */
  method Dispatch(fd: int, msg: Message, state: ServerState) returns (result: seq<Reply>)
    requires state.Valid()
    modifies state.Repr()
    ensures state.Valid() && fresh(state.Repr() - old(state.Repr()))
    ensures Out(state.View(), result) == Commands.Dispatch(old(state.View()), fd, msg)
  {
    hide Inv, Commands.Dispatch, CommandOf, OpenToAll;
    var cmd := CmdNameToNumber(msg.command);
    state.NothingChanged();
    var refused;
    refused, result := Gate(fd, cmd, msg, state);
    if !refused {
      result := Proceed(fd, cmd, msg, state);
    }
  }
}
