// What every command does to the state, and what it answers: the specification that the
// handlers of src/handle*.cpp are proved against. `c` is the client that sent the command.
module Commands {
  import opened Text
  import opened Parser
  import opened Clients
  import opened Channels
  import opened Replies
  import opened Model
  import opened Mode

  datatype Out = Out(s: State, r: seq<Reply>)

  function Refuse(s: State, c: Client, num: nat, msg: string): Out {
    Out(s, Tell(s, c, num, msg))
  }

  // ----- PASS, NICK, USER --------------------------------------------------------------------

  function Welcome(s: State, c: Client): seq<Reply> {
    Tell(s, c, 1, "") + Tell(s, c, 2, "") + Tell(s, c, 3, "") + Tell(s, c, 4, "")
  }

  /** Client::tryRegister, with the burst that follows it. */
  function Register(s: State, c: Client): Out {
    var r := s.Rec(c);
    if !r.registered && r.Complete() then Out(s.WithRec(c, r.(registered := true)), Welcome(s, c)) else Out(s, [])
  }

  function Pass(s: State, c: Client, params: seq<string>): Out {
    if |params| < 1 then Refuse(s, c, 461, "PASS")
    else if s.Rec(c).registered then Refuse(s, c, 462, "")
    else if params[0] != s.password then Refuse(s, c, 464, "")
    else Register(s.WithRec(c, s.Rec(c).(passAccepted := true)), c)
  }

  function Nick(s: State, c: Client, params: seq<string>): Out {
    if |params| < 1 then Refuse(s, c, 431, "")
    else if !ValidNick(params[0]) then Refuse(s, c, 432, params[0])
    else if params[0] in s.byNick && s.byNick[params[0]] != c then Refuse(s, c, 433, params[0])
    else
      var (t, claimed) := UpdateNickname(s, c, params[0]);
      if !claimed then Refuse(s, c, 433, params[0]) else Register(t, c)
  }

  function User(s: State, c: Client, params: seq<string>): Out {
    if |params| < 4 then Refuse(s, c, 461, "USER")
    else if s.Rec(c).registered then Refuse(s, c, 462, "")
    else Register(s.WithRec(c, s.Rec(c).(username := params[0], realname := params[3])), c)
  }

  // ----- JOIN --------------------------------------------------------------------------------

  /** The member list of the 353 reply: nicks apart by spaces, operators with a leading '@'. */
  ghost function MemberLine(s: State, ch: ChanRec, rest: set<Client>, line: string): string {
    if rest == {} then line
    else
      var m := First(rest);
      MemberLine(s, ch, rest - {m},
        (if line == "" then "" else line + " ") + (if m in ch.operators then "@" else "") + s.Rec(m).nickname)
  }

  function NotifyTopic(s: State, c: Client, ch: ChanRec): seq<Reply> {
    if ch.topic == "" then Tell(s, c, 331, ch.name) else Tell(s, c, 332, ch.name + " :" + ch.topic)
  }

  ghost function NotifyMembers(s: State, c: Client, ch: ChanRec): seq<Reply> {
    Tell(s, c, 353, ch.name + " :" + MemberLine(s, ch, ch.members, "")) + Tell(s, c, 366, ch.name)
  }

  ghost function JoinReplies(s: State, c: Client, ch: ChanRec): seq<Reply> {
    Deliver(ch.members, null, Joined(Prefix(s, c), ch.name)) + NotifyTopic(s, c, ch) + NotifyMembers(s, c, ch)
  }

  /** The admission rules of an existing channel: the numeric that refuses, or 0. */
  function Refusal(ch: ChanRec, c: Client, key: string): nat {
    if ch.modes.inviteOnly && c !in ch.invited then 473
    else if ch.modes.channelProtected && key != ch.modes.channelPass then 475
    else if ch.modes.memberLimited && |ch.members| >= ch.modes.maxMember then 471
    else 0
  }

  /** A channel just created by `c`. */
  function Created(name: string, c: Client): ChanRec {
    EmptyChannel(name).(members := {c}, operators := {c})
  }

  ghost function JoinOne(s: State, c: Client, name: string, key: string): Out {
    if !ValidChannelName(name) then Refuse(s, c, 403, name)
    else if name !in s.channels then
      var ch := Created(name, c);
      Out(s.WithChannel(name, ch), JoinReplies(s, c, ch))
    else
      var ch := s.channels[name];
      if c in ch.members then Out(s, [])
      else if Refusal(ch, c, key) != 0 then Refuse(s, c, Refusal(ch, c, key), name)
      else
        var joined := ch.(members := ch.members + {c});
        Out(s.WithChannel(name, joined), JoinReplies(s, c, joined))
  }

  /** The left-to-right fold over the names, each with the key at its own position. */
  ghost function JoinMany(s: State, c: Client, names: seq<string>, keys: seq<string>): Out
    decreases |names|
  {
    if names == [] then Out(s, [])
    else
      var one := JoinOne(s, c, names[0], if keys == [] then "" else keys[0]);
      var rest := JoinMany(one.s, c, names[1..], if keys == [] then [] else keys[1..]);
      Out(rest.s, one.r + rest.r)
  }

  ghost function Join(s: State, c: Client, params: seq<string>): Out {
    if |params| < 1 then Refuse(s, c, 461, "JOIN")
    else JoinMany(s, c, Split(params[0], ','), if |params| > 1 then Split(params[1], ',') else [])
  }

  // ----- KICK --------------------------------------------------------------------------------

  /** ServerState::removeChannelIfEmpty */
  function DropIfEmpty(s: State, n: string): State {
    if n in s.channels && s.channels[n].members == {} then s.(channels := s.channels - {n}) else s
  }

  ghost function KickOne(s: State, c: Client, n: string, nick: string, reason: string): Out {
    if nick == "" then Refuse(s, c, 411, "KICK")
    else if n !in s.channels then Refuse(s, c, 403, n)
    else if nick !in s.byNick then Refuse(s, c, 401, nick)
    else if s.Rec(c).nickname == "" then Refuse(s, c, 401, "")
    else
      var ch, target := s.channels[n], s.byNick[nick];
      if c !in ch.members then Refuse(s, c, 442, n)
      else if c !in ch.operators then Refuse(s, c, 482, n)
      else if target !in ch.members then Refuse(s, c, 441, nick + " " + n)
      else
        Out(DropIfEmpty(s.WithChannel(n, ch.Without(target)), n),
            Deliver(ch.members, null, Kicked(Prefix(s, c), n, TargetName(s.Rec(target).nickname), reason)))
  }

  ghost function KickMany(s: State, c: Client, n: string, nicks: seq<string>, reason: string): Out
    decreases |nicks|
  {
    if nicks == [] then Out(s, [])
    else
      var one := KickOne(s, c, n, nicks[0], reason);
      var rest := KickMany(one.s, c, n, nicks[1..], reason);
      Out(rest.s, one.r + rest.r)
  }

  function KickReason(s: State, c: Client, params: seq<string>): string {
    if |params| > 2 && params[2] != "" then params[2] else s.Rec(c).nickname
  }

  ghost function Kick(s: State, c: Client, params: seq<string>): Out {
    if |params| < 2 then Refuse(s, c, 461, "KICK")
    else if params[0] !in s.channels then Refuse(s, c, 403, params[0])
    else KickMany(s, c, params[0], Split(params[1], ','), KickReason(s, c, params))
  }

  // ----- INVITE, TOPIC, MODE -------------------------------------------------------------------

  /** INVITE by an operator, of a nick that exists. */
  function InviteNick(s: State, c: Client, n: string, nick: string): Out
    requires n in s.channels && nick in s.byNick
  {
    var ch, target := s.channels[n], s.byNick[nick];
    if target in ch.members then Refuse(s, c, 443, nick + " " + n)
    else if target in ch.invited then Out(s, [])
    else
      Out(s.WithChannel(n, ch.(invited := ch.invited + {target})),
          Tell(s, c, 341, nick + " " + n)
          + [Reply(target.socketFd, Invited(Prefix(s, c), TargetName(s.Rec(target).nickname), n))])
  }

  function Invite(s: State, c: Client, params: seq<string>): Out {
    if |params| < 2 then Refuse(s, c, 461, "INVITE")
    else
      var n, nick := params[1], params[0];
      if n !in s.channels then Refuse(s, c, 403, n)
      else if c !in s.channels[n].members then Refuse(s, c, 442, n)
      else if c !in s.channels[n].operators then Refuse(s, c, 482, n)
      else if nick !in s.byNick then Refuse(s, c, 401, nick)
      else InviteNick(s, c, n, nick)
  }

  ghost function SetTopic(s: State, c: Client, n: string, topic: string): Out
    requires n in s.channels
  {
    var ch := s.channels[n];
    Out(s.WithChannel(n, ch.(topic := topic)), Deliver(ch.members, null, TopicSet(Prefix(s, c), n, topic)))
  }

  ghost function Topic(s: State, c: Client, params: seq<string>): Out {
    if |params| < 1 then Refuse(s, c, 461, "TOPIC")
    else
      var n := params[0];
      if n !in s.channels then Refuse(s, c, 403, n)
      else
        var ch := s.channels[n];
        if c !in ch.members then Refuse(s, c, 442, n)
        else if |params| == 1 then Out(s, NotifyTopic(s, c, ch))
        else if ch.modes.topicRestricted && c !in ch.operators then Refuse(s, c, 482, n)
        else SetTopic(s, c, n, params[1])
  }

  function CurrentModes(m: ModesRec): string {
    "+" + (if m.inviteOnly then "i" else "") + (if m.topicRestricted then "t" else "")
    + (if m.channelProtected then "k" else "") + (if m.memberLimited then "l" else "")
  }

  /** The channel changes of a MODE by an operator, and the broadcast when there are any. */
  ghost function ModeChanges(s: State, c: Client, n: string, params: seq<string>): Out
    requires n in s.channels && |params| > 1
  {
    var run := Interpret(s, c, params, Start(s.channels[n]), params[1]);
    Out(s.WithChannel(n, run.ch),
        run.replies
        + if run.events == [] then []
          else Deliver(run.ch.members, null, ModeSet(Prefix(s, c), n, Announcement(run.events))))
  }

  ghost function ModeCmd(s: State, c: Client, params: seq<string>): Out {
    if |params| < 1 then Refuse(s, c, 461, "MODE")
    else
      var n := params[0];
      if n !in s.channels then Refuse(s, c, 403, n)
      else
        var ch := s.channels[n];
        if |params| == 1 then Refuse(s, c, 324, n + " " + CurrentModes(ch.modes))
        else if c !in ch.members then Refuse(s, c, 442, n)
        else if c !in ch.operators then Refuse(s, c, 482, n)
        else ModeChanges(s, c, n, params)
  }

  // ----- PRIVMSG -----------------------------------------------------------------------------

  ghost function SendOne(s: State, c: Client, target: string, text: string): seq<Reply> {
    if target == "" then Tell(s, c, 411, "PRIVMSG")
    else if target[0] == '#' then
      if target !in s.channels then Tell(s, c, 403, target)
      else if c !in s.channels[target].members then Tell(s, c, 404, target)
      else Deliver(s.channels[target].members, c, PrivMsg(Prefix(s, c), target, text))
    else if target !in s.byNick then Tell(s, c, 401, target)
    else [Reply(s.byNick[target].socketFd, PrivMsg(Prefix(s, c), target, text))]
  }

  ghost function SendMany(s: State, c: Client, targets: seq<string>, text: string): seq<Reply> {
    if targets == [] then [] else SendOne(s, c, targets[0], text) + SendMany(s, c, targets[1..], text)
  }

  ghost function PrivMsgCmd(s: State, c: Client, params: seq<string>): Out {
    if |params| < 1 then Refuse(s, c, 411, "PRIVMSG")
    else if |params| < 2 || params[1] == "" then Refuse(s, c, 412, "")
    else Out(s, SendMany(s, c, Split(params[0], ','), params[1]))
  }

  // ----- PING, CAP ---------------------------------------------------------------------------

  function Ping(s: State, c: Client, params: seq<string>): Out {
    Out(s, [Reply(c.socketFd, Pong(if params == [] then "ircServ" else params[0]))])
  }

  function CapCmd(s: State, c: Client, params: seq<string>): Out {
    if |params| < 1 then Out(s, [])
    else if params[0] == "LS" then Out(s, [Reply(c.socketFd, Cap(TargetName(s.Rec(c).nickname), " LS :"))])
    else if params[0] == "REQ" then
      Out(s, [Reply(c.socketFd, Cap(TargetName(s.Rec(c).nickname),
                                      " NAK :" + (if |params| > 1 then params[1] else "")))])
    else Out(s, [])
  }

  // ----- Dispatch ----------------------------------------------------------------------------

  datatype Command =
    CmdInvalid | CmdPass | CmdNick | CmdUser | CmdJoin | CmdPrivMsg
    | CmdKick | CmdInvite | CmdTopic | CmdMode | CmdPing | CmdCap

  /** The table `cmds`, in the order of the enumeration. */
  const CMDS: seq<(string, Command)> := [
    ("INVALID", CmdInvalid), ("PASS", CmdPass), ("NICK", CmdNick), ("USER", CmdUser), ("JOIN", CmdJoin),
    ("PRIVMSG", CmdPrivMsg), ("KICK", CmdKick), ("INVITE", CmdInvite), ("TOPIC", CmdTopic), ("MODE", CmdMode),
    ("PING", CmdPing), ("CAP", CmdCap)
  ]

  function Lookup(table: seq<(string, Command)>, name: string): Command {
    if table == [] then CmdInvalid
    else if table[0].0 == name then table[0].1
    else Lookup(table[1..], name)
  }

  function CommandOf(name: string): Command {
    Lookup(CMDS, name)
  }

  lemma {:induction false} LookupAt(table: seq<(string, Command)>, name: string, i: nat)
    requires i <= |table| && forall j | 0 <= j < i :: table[j].0 != name
    ensures i < |table| && table[i].0 == name ==> Lookup(table, name) == table[i].1
    ensures i == |table| ==> Lookup(table, name).CmdInvalid?
  {
    if i == 0 {
    } else {
      LookupAt(table[1..], name, i - 1);
    }
  }

  /** Which name calls which command; every other name is that of no command. */
  lemma CommandNames(name: string)
    ensures CommandOf(name).CmdPass? <==> name == "PASS"
    ensures CommandOf(name).CmdNick? <==> name == "NICK"
    ensures CommandOf(name).CmdUser? <==> name == "USER"
    ensures CommandOf(name).CmdJoin? <==> name == "JOIN"
    ensures CommandOf(name).CmdPrivMsg? <==> name == "PRIVMSG"
    ensures CommandOf(name).CmdKick? <==> name == "KICK"
    ensures CommandOf(name).CmdInvite? <==> name == "INVITE"
    ensures CommandOf(name).CmdTopic? <==> name == "TOPIC"
    ensures CommandOf(name).CmdMode? <==> name == "MODE"
    ensures CommandOf(name).CmdPing? <==> name == "PING"
    ensures CommandOf(name).CmdCap? <==> name == "CAP"
  {
    hide Lookup;
    if name == "INVALID" {
      LookupAt(CMDS, name, 0);
    } else if name == "PASS" {
      LookupAt(CMDS, name, 1);
    } else if name == "NICK" {
      LookupAt(CMDS, name, 2);
    } else if name == "USER" {
      LookupAt(CMDS, name, 3);
    } else if name == "JOIN" {
      LookupAt(CMDS, name, 4);
    } else if name == "PRIVMSG" {
      LookupAt(CMDS, name, 5);
    } else if name == "KICK" {
      LookupAt(CMDS, name, 6);
    } else if name == "INVITE" {
      LookupAt(CMDS, name, 7);
    } else if name == "TOPIC" {
      LookupAt(CMDS, name, 8);
    } else if name == "MODE" {
      LookupAt(CMDS, name, 9);
    } else if name == "PING" {
      LookupAt(CMDS, name, 10);
    } else if name == "CAP" {
      LookupAt(CMDS, name, 11);
    } else {
      LookupAt(CMDS, name, |CMDS|);
    }
  }

  /** The commands an unregistered client may use. */
  predicate OpenToAll(cmd: Command) {
    cmd.CmdPass? || cmd.CmdNick? || cmd.CmdUser? || cmd.CmdCap? || cmd.CmdInvalid?
  }

  ghost function Execute(s: State, c: Client, cmd: Command, m: Message): Out {
    match cmd
    case CmdPass => Pass(s, c, m.params)
    case CmdNick => Nick(s, c, m.params)
    case CmdUser => User(s, c, m.params)
    case CmdJoin => Join(s, c, m.params)
    case CmdPrivMsg => PrivMsgCmd(s, c, m.params)
    case CmdKick => Kick(s, c, m.params)
    case CmdInvite => Invite(s, c, m.params)
    case CmdTopic => Topic(s, c, m.params)
    case CmdMode => ModeCmd(s, c, m.params)
    case CmdPing => Ping(s, c, m.params)
    case CmdCap => CapCmd(s, c, m.params)
    case CmdInvalid => Refuse(s, c, 421, m.command)
  }

  /** CommandDispatcher::dispatch; a connection that is not there gets no answer. */
  ghost function Dispatch(s: State, fd: int, m: Message): Out {
    if fd !in s.byFd then Out(s, [])
    else
      var c, cmd := s.byFd[fd], CommandOf(m.command);
      if !OpenToAll(cmd) && !s.Rec(c).registered then Refuse(s, c, 451, m.command)
      else Execute(s, c, cmd, m)
  }
}
