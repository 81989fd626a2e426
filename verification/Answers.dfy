// What goes out: every reply is one line to a live connection, and clients can decode it.
module Answers {
  import opened Text
  import opened Parser
  import opened Clients
  import opened Channels
  import opened Replies
  import opened Model
  import opened Mode
  import opened Reading
  import opened Commands
  import opened Safety

  // ----- Stored strings ------------------------------------------------------------------------

  /** What the parser guarantees of a message that came from one line. */
  predicate FromLine(m: Message) {
    && |m.params| <= MAX_PARAMS && GoodParams(m.params)
    && AllFree(m.params, '\n') && Free(m.command, '\n')
  }

  lemma ParsedFromLine(line: string)
    requires Free(line, '\n')
    ensures FromLine(Parsed(line))
  {
    ParsedWellFormed(line);
    ParsedWithout(line, '\n');
  }

  /** The stored strings that are sent: user names have no space and no newline, topics are one line. */
  ghost predicate TextsOk(s: State) {
    && (forall c | c in s.clients :: Free(s.clients[c].username, ' ') && Free(s.clients[c].username, '\n'))
    && (forall n | n in s.channels :: Free(s.channels[n].topic, '\n'))
  }

  lemma NickChars(s: State, c: Client)
    requires Inv(s)
    ensures forall x | x in s.Rec(c).nickname :: NickChar(x)
  {
  }

  lemma RegisterTexts(s: State, c: Client)
    requires TextsOk(s) && c in s.clients
    ensures TextsOk(Register(s, c).s)
  {
  }

  lemma PassTexts(s: State, c: Client, params: seq<string>)
    requires c in s.clients && TextsOk(s)
    ensures TextsOk(Pass(s, c, params).s)
  {
    RegisterTexts(s.WithRec(c, s.Rec(c).(passAccepted := true)), c);
  }

  lemma NickTexts(s: State, c: Client, params: seq<string>)
    requires c in s.clients && TextsOk(s)
    ensures TextsOk(Nick(s, c, params).s)
  {
    if |params| >= 1 {
      RegisterTexts(UpdateNickname(s, c, params[0]).0, c);
    }
  }

  /** USER needs four parameters, so the user name is never the last one: it has no space. */
  lemma UserTexts(s: State, c: Client, params: seq<string>)
    requires c in s.clients && TextsOk(s) && GoodParams(params) && AllFree(params, '\n')
    ensures TextsOk(User(s, c, params).s)
  {
    if |params| >= 4 {
      assert Middle(params[0]) && params[0] in params;
      RegisterTexts(s.WithRec(c, s.Rec(c).(username := params[0], realname := params[3])), c);
    }
  }

  lemma JoinTexts(s: State, c: Client, params: seq<string>)
    requires Inv(s) && c in s.clients && s.clients[c].registered && TextsOk(s)
    ensures TextsOk(Join(s, c, params).s)
  {
    JoinKeeps(s, c, params);
  }

  lemma KickTexts(s: State, c: Client, params: seq<string>)
    requires Inv(s) && c in s.clients && TextsOk(s)
    ensures TextsOk(Kick(s, c, params).s)
  {
    KickEquation(s, c, params);
  }

  lemma ModeTexts(s: State, c: Client, params: seq<string>)
    requires TextsOk(s)
    ensures TextsOk(ModeCmd(s, c, params).s)
  {
    if |params| >= 2 && params[0] in s.channels {
      InterpretFrame(s, c, params, Start(s.channels[params[0]]), params[1]);
    }
  }

  lemma QuietTexts(s: State, c: Client, cmd: Command, m: Message)
    requires TextsOk(s) && FromLine(m)
    requires cmd.CmdPrivMsg? || cmd.CmdPing? || cmd.CmdCap? || cmd.CmdInvalid? || cmd.CmdTopic? || cmd.CmdInvite?
    ensures TextsOk(Execute(s, c, cmd, m).s)
  {
  }

  lemma DispatchTexts(s: State, fd: int, m: Message)
    requires Inv(s) && TextsOk(s) && FromLine(m)
    ensures TextsOk(Dispatch(s, fd, m).s)
  {
    var cmd := CommandOf(m.command);
    if fd in s.byFd && (OpenToAll(cmd) || s.Rec(s.byFd[fd]).registered) {
      var c := s.byFd[fd];
      match cmd {
        case CmdPass => PassTexts(s, c, m.params);
        case CmdNick => NickTexts(s, c, m.params);
        case CmdUser => UserTexts(s, c, m.params);
        case CmdJoin => JoinTexts(s, c, m.params);
        case CmdKick => KickTexts(s, c, m.params);
        case CmdMode => ModeTexts(s, c, m.params);
        case _ => QuietTexts(s, c, cmd, m);
      }
    }
  }

  // ----- Good replies --------------------------------------------------------------------------

  /** One line, to a live connection, with a readable command word. */
  ghost predicate GoodReply(s: State, x: Reply) {
    x.fd in s.byFd && OneLine(x.body) && ProperHead(x.body)
  }

  /** Neither a welcome numeric nor a MODE announcement. */
  predicate Plain(b: Body) {
    !b.ModeSet? && !(b.Numeric? && b.num <= 4)
  }

  ghost predicate AllGood(s: State, r: seq<Reply>) {
    forall x | x in r :: GoodReply(s, x)
  }

  ghost predicate AllPlain(s: State, r: seq<Reply>) {
    forall x | x in r :: GoodReply(s, x) && Plain(x.body)
  }

  lemma TellPlain(s: State, c: Client, num: nat, msg: string)
    requires Inv(s) && c in s.clients && Known(num) && num > 4 && Free(msg, '\n')
    ensures AllPlain(s, Tell(s, c, num, msg))
  {
    NickChars(s, c);
  }

  lemma PlainNothing(s: State)
    ensures AllPlain(s, [])
  {
  }

  lemma PlainConcat(s: State, a: seq<Reply>, b: seq<Reply>)
    requires AllPlain(s, a) && AllPlain(s, b)
    ensures AllPlain(s, a + b)
  {
  }

  lemma BuildPrefixFree(nick: string, user: string, c: char)
    requires Free(nick, c) && Free(user, c) && (c == ' ' || c == '\n')
    ensures Free(BuildPrefix(nick, user), c)
  {
    assert Free("@ircServ", c) && Free(if user == "" then "unknown" else user, c);
    assert Free(":" + TargetName(nick) + "!", c);
  }

  lemma PrefixFree(s: State, c: Client)
    requires Inv(s) && TextsOk(s)
    ensures Free(Prefix(s, c), ' ') && Free(Prefix(s, c), '\n') && Prefix(s, c) != "" && Prefix(s, c)[0] == ':'
  {
    NickChars(s, c);
    BuildPrefixFree(s.Rec(c).nickname, s.Rec(c).username, ' ');
    BuildPrefixFree(s.Rec(c).nickname, s.Rec(c).username, '\n');
  }

  lemma DeliverPlain(s: State, to: set<Client>, except: Client?, body: Body)
    requires Inv(s) && to <= s.clients.Keys && OneLine(body) && ProperHead(body)
    ensures AllGood(s, Deliver(to, except, body))
    ensures Plain(body) ==> AllPlain(s, Deliver(to, except, body))
  {
    DeliverAll(to, except, body);
    assert forall c | c in to :: c.socketFd in s.byFd;
  }

  /** Replies stay good as long as no connection has gone. */
  lemma PlainElsewhere(s: State, t: State, r: seq<Reply>)
    requires s.byFd == t.byFd && AllPlain(t, r)
    ensures AllPlain(s, r)
  {
  }

  lemma NamesAreLines(n: string)
    ensures ValidChannelName(n) ==> Free(n, '\n') && Free(n, ' ') && Free(n, ':')
    ensures ValidNick(n) ==> Free(n, '\n') && Free(n, ' ')
  {
  }

  lemma RegisterReplies(s: State, c: Client)
    requires c in s.clients && FdsAgree(s) && (forall x | x in s.Rec(c).nickname :: NickChar(x))
    ensures AllGood(s, Register(s, c).r)
  {
  }

  lemma {:induction false} MemberLineFree(s: State, ch: ChanRec, rest: set<Client>, line: string)
    requires Inv(s) && Free(line, '\n')
    ensures Free(MemberLine(s, ch, rest, line), '\n')
  {
    if rest == {} {
    } else {
      var m := First(rest);
      NickChars(s, m);
      MemberLineFree(s, ch, rest - {m},
        (if line == "" then "" else line + " ") + (if m in ch.operators then "@" else "") + s.Rec(m).nickname);
    }
  }

  lemma NotifyTopicPlain(s: State, c: Client, ch: ChanRec)
    requires Inv(s) && c in s.clients && Free(ch.name, '\n') && Free(ch.topic, '\n')
    ensures AllPlain(s, NotifyTopic(s, c, ch))
  {
    TellPlain(s, c, 331, ch.name);
    TellPlain(s, c, 332, ch.name + " :" + ch.topic);
  }

  lemma JoinRepliesPlain(s: State, c: Client, ch: ChanRec)
    requires Inv(s) && TextsOk(s) && c in s.clients && ch.members <= s.clients.Keys
    requires ValidChannelName(ch.name) && Free(ch.topic, '\n')
    ensures AllPlain(s, JoinReplies(s, c, ch))
  {
    NamesAreLines(ch.name);
    PrefixFree(s, c);
    DeliverPlain(s, ch.members, null, Joined(Prefix(s, c), ch.name));
    NotifyTopicPlain(s, c, ch);
    MemberLineFree(s, ch, ch.members, "");
    TellPlain(s, c, 353, ch.name + " :" + MemberLine(s, ch, ch.members, ""));
    TellPlain(s, c, 366, ch.name);
  }

  lemma JoinOnePlain(s: State, c: Client, name: string, key: string)
    requires Inv(s) && TextsOk(s) && c in s.clients && Free(name, '\n')
    ensures AllPlain(s, JoinOne(s, c, name, key).r)
  {
    TellPlain(s, c, 403, name);
    if ValidChannelName(name) {
      if name !in s.channels {
        JoinRepliesPlain(s, c, Created(name, c));
      } else {
        var ch := s.channels[name];
        assert ChannelOk(s, name, ch);
        TellPlain(s, c, 471, name);
        TellPlain(s, c, 473, name);
        TellPlain(s, c, 475, name);
        JoinRepliesPlain(s, c, ch.(members := ch.members + {c}));
      }
    }
  }

  lemma JoinStepKeeps(s: State, c: Client, name: string, key: string)
    requires Inv(s) && TextsOk(s) && c in s.clients && s.clients[c].registered
    ensures var t := JoinOne(s, c, name, key).s;
      Inv(t) && TextsOk(t) && t.byFd == s.byFd && t.clients == s.clients
  {
    hide JoinOne, Admissible;
    JoinOneKeeps(s, c, name, key);
  }

  lemma {:induction false} JoinManyPlain(s: State, c: Client, names: seq<string>, keys: seq<string>)
    requires Inv(s) && TextsOk(s) && c in s.clients && s.clients[c].registered && AllFree(names, '\n')
    ensures AllPlain(s, JoinMany(s, c, names, keys).r)
    decreases |names|
  {
    if names == [] {
    } else {
      var key := if keys == [] then "" else keys[0];
      var one := JoinOne(s, c, names[0], key);
      assert names[0] in names;
      JoinOnePlain(s, c, names[0], key);
      JoinStepKeeps(s, c, names[0], key);
      var restKeys := if keys == [] then [] else keys[1..];
      var rest := JoinMany(one.s, c, names[1..], restKeys);
      JoinManyPlain(one.s, c, names[1..], restKeys);
      PlainElsewhere(s, one.s, rest.r);
      PlainConcat(s, one.r, rest.r);
    }
  }

  lemma JoinPlain(s: State, c: Client, params: seq<string>)
    requires Inv(s) && TextsOk(s) && c in s.clients && s.clients[c].registered && AllFree(params, '\n')
    ensures AllPlain(s, Join(s, c, params).r)
  {
    TellPlain(s, c, 461, "JOIN");
    if |params| >= 1 {
      SplitWithout(params[0], ',', '\n');
      JoinManyPlain(s, c, Split(params[0], ','), if |params| > 1 then Split(params[1], ',') else []);
    }
  }

  lemma MembersAreClients(s: State, n: string)
    requires Inv(s) && n in s.channels
    ensures s.channels[n].members <= s.clients.Keys
  {
    assert ChannelOk(s, n, s.channels[n]);
  }

  lemma HolderLives(s: State, nick: string)
    requires Inv(s) && nick in s.byNick
    ensures s.byNick[nick] in s.clients
  {
  }

  lemma KickOnePlain(s: State, c: Client, n: string, nick: string, reason: string)
    requires Inv(s) && TextsOk(s) && c in s.clients
    requires Free(n, '\n') && Free(nick, '\n') && Free(reason, '\n')
    ensures AllPlain(s, KickOne(s, c, n, nick, reason).r)
  {
    hide Inv, TextsOk, AllPlain, Tell, Deliver, BuildPrefix;
    TellPlain(s, c, 411, "KICK");
    TellPlain(s, c, 403, n);
    TellPlain(s, c, 401, nick);
    TellPlain(s, c, 401, "");
    TellPlain(s, c, 442, n);
    TellPlain(s, c, 482, n);
    TellPlain(s, c, 441, nick + " " + n);
    if n in s.channels && nick in s.byNick {
      MembersAreClients(s, n);
      PrefixFree(s, c);
      NickChars(s, s.byNick[nick]);
      DeliverPlain(s, s.channels[n].members, null,
        Kicked(Prefix(s, c), n, TargetName(s.Rec(s.byNick[nick]).nickname), reason));
    }
  }

  lemma KickOneTexts(s: State, c: Client, n: string, nick: string, reason: string)
    requires TextsOk(s)
    ensures TextsOk(KickOne(s, c, n, nick, reason).s)
  {
    hide Deliver;
  }

  lemma {:induction false} KickManyPlain(s: State, c: Client, n: string, nicks: seq<string>, reason: string)
    requires Inv(s) && TextsOk(s) && c in s.clients
    requires Free(n, '\n') && AllFree(nicks, '\n') && Free(reason, '\n')
    ensures AllPlain(s, KickMany(s, c, n, nicks, reason).r)
    decreases |nicks|
  {
    if nicks == [] {
    } else {
      var one := KickOne(s, c, n, nicks[0], reason);
      assert nicks[0] in nicks;
      KickOnePlain(s, c, n, nicks[0], reason);
      KickOneInv(s, c, n, nicks[0], reason);
      KickOneTexts(s, c, n, nicks[0], reason);
      KickManyPlain(one.s, c, n, nicks[1..], reason);
      PlainElsewhere(s, one.s, KickMany(one.s, c, n, nicks[1..], reason).r);
    }
  }

  lemma KickPlain(s: State, c: Client, params: seq<string>)
    requires Inv(s) && TextsOk(s) && c in s.clients && AllFree(params, '\n')
    ensures AllPlain(s, Kick(s, c, params).r)
  {
    TellPlain(s, c, 461, "KICK");
    if |params| >= 2 {
      TellPlain(s, c, 403, params[0]);
      SplitWithout(params[1], ',', '\n');
      NickChars(s, c);
      KickManyPlain(s, c, params[0], Split(params[1], ','), KickReason(s, c, params));
    }
  }

  lemma InvitedPlain(s: State, c: Client, target: Client, n: string)
    requires Inv(s) && TextsOk(s) && c in s.clients && target in s.clients && Free(n, '\n')
    ensures AllPlain(s, [Reply(target.socketFd, Invited(Prefix(s, c), TargetName(s.Rec(target).nickname), n))])
  {
    PrefixFree(s, c);
    NickChars(s, target);
  }

  lemma InviteTells(s: State, c: Client, n: string, nick: string)
    requires Inv(s) && c in s.clients && Free(n, '\n') && Free(nick, '\n')
    ensures AllPlain(s, Tell(s, c, 403, n)) && AllPlain(s, Tell(s, c, 442, n)) && AllPlain(s, Tell(s, c, 482, n))
    ensures AllPlain(s, Tell(s, c, 401, nick)) && AllPlain(s, Tell(s, c, 443, nick + " " + n))
    ensures AllPlain(s, Tell(s, c, 341, nick + " " + n))
  {
    TellPlain(s, c, 403, n);
    TellPlain(s, c, 442, n);
    TellPlain(s, c, 482, n);
    TellPlain(s, c, 401, nick);
    TellPlain(s, c, 443, nick + " " + n);
    TellPlain(s, c, 341, nick + " " + n);
  }

  lemma InvitePlain(s: State, c: Client, params: seq<string>)
    requires Inv(s) && TextsOk(s) && c in s.clients && AllFree(params, '\n')
    ensures AllPlain(s, Invite(s, c, params).r)
  {
    hide Inv, TextsOk, AllPlain, Tell;
    if |params| < 2 {
      TellPlain(s, c, 461, "INVITE");
    } else {
      var n, nick := params[1], params[0];
      InviteTells(s, c, n, nick);
      if nick in s.byNick {
        var target := s.byNick[nick];
        HolderLives(s, nick);
        PlainNothing(s);
        InvitedPlain(s, c, target, n);
        PlainConcat(s, Tell(s, c, 341, nick + " " + n),
          [Reply(target.socketFd, Invited(Prefix(s, c), TargetName(s.Rec(target).nickname), n))]);
      }
    }
  }

  lemma TopicSetPlain(s: State, c: Client, n: string, topic: string)
    requires Inv(s) && TextsOk(s) && c in s.clients && n in s.channels && Free(topic, '\n')
    ensures AllPlain(s, NotifyTopic(s, c, s.channels[n]))
    ensures AllPlain(s, Deliver(s.channels[n].members, null, TopicSet(Prefix(s, c), n, topic)))
  {
    var ch := s.channels[n];
    assert ChannelOk(s, n, ch);
    NamesAreLines(n);
    NotifyTopicPlain(s, c, ch);
    PrefixFree(s, c);
    DeliverPlain(s, ch.members, null, TopicSet(Prefix(s, c), n, topic));
  }

  lemma TopicPlain(s: State, c: Client, params: seq<string>)
    requires Inv(s) && TextsOk(s) && c in s.clients && AllFree(params, '\n')
    ensures AllPlain(s, Topic(s, c, params).r)
  {
    hide Inv, TextsOk, AllPlain, Tell, Deliver, NotifyTopic;
    TellPlain(s, c, 461, "TOPIC");
    if |params| >= 1 {
      var n := params[0];
      TellPlain(s, c, 403, n);
      TellPlain(s, c, 442, n);
      TellPlain(s, c, 482, n);
      if n in s.channels {
        TopicSetPlain(s, c, n, if |params| >= 2 then params[1] else "");
      }
    }
  }

  lemma SendOnePlain(s: State, c: Client, target: string, text: string)
    requires Inv(s) && TextsOk(s) && c in s.clients && Free(target, '\n') && Free(text, '\n')
    ensures AllPlain(s, SendOne(s, c, target, text))
  {
    TellPlain(s, c, 411, "PRIVMSG");
    TellPlain(s, c, 401, target);
    TellPlain(s, c, 403, target);
    TellPlain(s, c, 404, target);
    PrefixFree(s, c);
    if target in s.channels {
      assert ChannelOk(s, target, s.channels[target]);
      DeliverPlain(s, s.channels[target].members, c, PrivMsg(Prefix(s, c), target, text));
    }
  }

  lemma {:induction false} SendManyPlain(s: State, c: Client, targets: seq<string>, text: string)
    requires Inv(s) && TextsOk(s) && c in s.clients && AllFree(targets, '\n') && Free(text, '\n')
    ensures AllPlain(s, SendMany(s, c, targets, text))
  {
    if targets == [] {
    } else {
      assert targets[0] in targets;
      SendOnePlain(s, c, targets[0], text);
      SendManyPlain(s, c, targets[1..], text);
    }
  }

  lemma PrivMsgPlain(s: State, c: Client, params: seq<string>)
    requires Inv(s) && TextsOk(s) && c in s.clients && AllFree(params, '\n')
    ensures AllPlain(s, PrivMsgCmd(s, c, params).r)
  {
    TellPlain(s, c, 411, "PRIVMSG");
    TellPlain(s, c, 412, "");
    if |params| >= 2 {
      SplitWithout(params[0], ',', '\n');
      SendManyPlain(s, c, Split(params[0], ','), params[1]);
    }
  }

  lemma PingPlain(s: State, c: Client, params: seq<string>)
    requires Inv(s) && c in s.clients && AllFree(params, '\n')
    ensures AllPlain(s, Ping(s, c, params).r)
  {
    assert params != [] ==> params[0] in params;
  }

  lemma CapReplyPlain(s: State, c: Client, rest: string)
    requires Inv(s) && c in s.clients && Free(rest, '\n')
    ensures AllPlain(s, [Reply(c.socketFd, Cap(TargetName(s.Rec(c).nickname), rest))])
  {
    NickChars(s, c);
  }

  lemma CapPlain(s: State, c: Client, params: seq<string>)
    requires Inv(s) && c in s.clients && AllFree(params, '\n')
    ensures AllPlain(s, CapCmd(s, c, params).r)
  {
    var requested := if |params| > 1 then params[1] else "";
    assert requested == "" || requested in params;
    CapReplyPlain(s, c, " LS :");
    CapReplyPlain(s, c, " NAK :" + requested);
  }

  // ----- MODE lines ------------------------------------------------------------------------------

  /** Reading one line as the announcement of mode changes, by the grammar of lines: the channel and the
      changes. */
  function ReadMode(t: string): Option<(string, seq<Event>)> {
    if |t| < 2 then None
    else
      var m := Parsed(t[..|t| - 2]);
      if m.command != "MODE" || |m.params| < 2 then None
      else
        match Decode(m.params[1], NO_SIGN, m.params[2..])
        case None => None
        case Some(events) => Some((m.params[0], events))
  }

  /** What is to be read of some changes on a channel. */
  function Told(n: string, read: Option<seq<Event>>): Option<(string, seq<Event>)> {
    match read
    case None => None
    case Some(events) => Some((n, events))
  }

  /** A line with a prefix, by the grammar of lines. */
  lemma PrefixedLine(head: string, verb: string, rest: string)
    requires Free(head, ' ') && head != "" && head[0] == ':' && Middle(verb)
    ensures Parsed(head + [' '] + (verb + [' '] + rest)) == Message(Upper(verb), Params([' '] + rest, MAX_PARAMS))
  {
    hide Params, Upper;
    var tail, line := verb + [' '] + rest, head + [' '] + (verb + [' '] + rest);
    assert line == head + ([' '] + tail);
    WordOfConcat(head, [' '] + tail);
    assert ([' '] + tail)[1..] == tail;
    assert AfterSpaces([' '] + tail) == AfterSpaces(tail) == tail;
    assert Parser.Body(line) == tail;
    assert tail == verb + ([' '] + rest);
    WordOfConcat(verb, [' '] + rest);
  }

  lemma WireText(b: Body)
    requires ProperHead(b)
    ensures Wire(b) == Head(b) + [' '] + (Verb(b) + [' '] + Rest(b)) + CRLF
    ensures |Wire(b)| >= 2 && Wire(b)[..|Wire(b)| - 2] == Head(b) + [' '] + (Verb(b) + [' '] + Rest(b))
  {
  }

  lemma VerbMiddle(b: Body)
    ensures !b.Pong? ==> Middle(Verb(b))
    ensures !b.ModeSet? ==> Upper(Verb(b)) != "MODE"
  {
    if b.Numeric? {
      assert |Upper(Verb(b))| == 3;
    } else {
      assert Upper(Verb(b))[0] == Upper1(Verb(b)[0]);
    }
  }

  /** The line a MODE broadcasts reads as the announcement of its channel. */
  lemma ModeLine(prefix: string, n: string, events: seq<Event>)
    requires Free(prefix, ' ') && prefix != "" && prefix[0] == ':' && Middle(n)
    requires events != [] && forall e | e in events :: EventOk(e)
    ensures ReadMode(Wire(ModeSet(prefix, n, Announcement(events)))) == Told(n, AsRead(events))
  {
    hide Params, Decode, Letters, Announcement, Parsed, ParamWords, ParamTail, Refill, EventOk;
    var b, text := ModeSet(prefix, n, Announcement(events)), Announcement(events);
    var words := Params(" " + text, MAX_PARAMS - 1);
    WireText(b);
    VerbMiddle(b);
    PrefixedLine(prefix, "MODE", n + " " + text);
    assert Upper("MODE") == "MODE";
    assert [' '] + (n + " " + text) == " " + n + (" " + text);
    ParamStep(n, " " + text, MAX_PARAMS);
    AsReadWords(events);
    assert ([n] + words)[1] == words[0] && ([n] + words)[2..] == words[1..];
  }

  /** The line a MODE broadcasts reads back as the channel and the changes exactly when no announced parameter
      needs a colon. */
  lemma ModeLineIff(prefix: string, n: string, events: seq<Event>)
    requires Free(prefix, ' ') && prefix != "" && prefix[0] == ':' && Middle(n)
    requires events != [] && (forall e | e in events :: EventOk(e)) && |ParamWords(events)| <= MAX_PARAMS - 2
    ensures ReadMode(Wire(ModeSet(prefix, n, Announcement(events)))) == Some((n, events)) <==> Clean(events)
  {
    hide ReadMode, Wire, AsRead, Middle;
    ModeLine(prefix, n, events);
    AnnouncementIff(events);
  }

  lemma PongLine(rest: string)
    ensures Parsed("PONG" + ([' '] + rest)).command == Upper("PONG")
  {
    hide Params, Upper;
    WordOfConcat("PONG", [' '] + rest);
    assert ("PONG" + ([' '] + rest))[0] == 'P';
  }

  /** No other reply can be taken for a MODE announcement. */
  lemma PlainIsNotMode(b: Body)
    requires ProperHead(b) && !b.ModeSet?
    ensures ReadMode(Wire(b)) == None
  {
    hide Params, Decode, Wire, Verb, Rest, Parsed;
    WireText(b);
    VerbMiddle(b);
    if b.Pong? {
      var rest := Verb(b) + [' '] + Rest(b);
      assert "PONG" + [' '] + rest == "PONG" + ([' '] + rest);
      PongLine(rest);
      assert Upper("PONG")[0] == 'P';
    } else {
      PrefixedLine(Head(b), Verb(b), Rest(b));
    }
  }

  lemma AnnouncementFree(events: seq<Event>, c: char)
    requires forall e | e in events :: EventOk(e) && Free(e.param, c)
    requires c == '\n'
    ensures Free(Announcement(events), c)
  {
    LettersFreeOf(events, NO_SIGN);
    TailFreeOf(events);
  }

  lemma {:induction false} LettersFreeOf(events: seq<Event>, last: char)
    requires forall e | e in events :: EventOk(e)
    ensures Free(Letters(events, last), '\n')
  {
    if events == [] {
    } else {
      assert EventOk(events[0]);
      LettersFreeOf(events[1..], Sign(events[0].adding));
    }
  }

  lemma {:induction false} TailFreeOf(events: seq<Event>)
    requires forall e | e in events :: Free(e.param, '\n')
    ensures Free(ParamTail(events), '\n')
  {
    if events == [] {
    } else {
      assert events[0] in events;
      TailFreeOf(events[1..]);
    }
  }

  lemma TurnLines(s: State, c: Client, params: seq<string>, r: Run, x: char)
    requires AllFree(params, '\n') && (forall e | e in r.events :: Free(e.param, '\n'))
    ensures forall e | e in Turn(s, c, params, r, x).events :: Free(e.param, '\n')
  {
  }

  /** What the interpreter announces and answers is made of its parameters. */
  lemma {:induction false} InterpretLines(s: State, c: Client, params: seq<string>, r: Run, str: string)
    requires Inv(s) && c in s.clients && AllFree(params, '\n') && Free(str, '\n') && Free(r.ch.name, '\n')
    requires (forall e | e in r.events :: Free(e.param, '\n')) && AllPlain(s, r.replies)
    ensures var t := Interpret(s, c, params, r, str);
      (forall e | e in t.events :: Free(e.param, '\n')) && AllPlain(s, t.replies)
    decreases |str|
  {
    if str == "" {
    } else {
      var x := str[0];
      TurnLines(s, c, params, r, x);
      TurnFrame(s, c, params, r, x);
      TurnReplies(s, c, params, r, x);
      InterpretLines(s, c, params, Turn(s, c, params, r, x), str[1..]);
    }
  }

  lemma TurnReplies(s: State, c: Client, params: seq<string>, r: Run, x: char)
    requires Inv(s) && c in s.clients && AllFree(params, '\n') && x != '\n' && Free(r.ch.name, '\n')
    requires AllPlain(s, r.replies)
    ensures AllPlain(s, Turn(s, c, params, r, x).replies)
  {
    hide Inv, AllPlain, Tell;
    TellPlain(s, c, 472, [x]);
    PlainConcat(s, r.replies, Tell(s, c, 472, [x]));
    if r.cursor < |params| {
      var nick := params[r.cursor];
      TellPlain(s, c, 401, nick);
      TellPlain(s, c, 441, nick + " " + r.ch.name);
      PlainConcat(s, r.replies, Tell(s, c, 401, nick));
      PlainConcat(s, r.replies, Tell(s, c, 441, nick + " " + r.ch.name));
    }
  }

  /** The replies of a MODE: plain answers to the sender, then one copy of the announcement for
      every member when anything changed. */
  lemma ModeReplies(s: State, c: Client, n: string, params: seq<string>)
    requires Inv(s) && TextsOk(s) && c in s.clients && AllFree(params, '\n') && |params| > 1 && n in s.channels
    ensures var run := Interpret(s, c, params, Start(s.channels[n]), params[1]);
      && AllPlain(s, run.replies)
      && run.ch.members == s.channels[n].members
      && GoodReply(s, Reply(c.socketFd, ModeSet(Prefix(s, c), n, Announcement(run.events))))
      && (forall e | e in run.events :: EventOk(e))
      && Replay(s.byNick, s.channels[n], run.events) == run.ch
  {
    var ch := s.channels[n];
    assert ChannelOk(s, n, ch);
    NamesAreLines(n);
    InterpretLines(s, c, params, Start(ch), params[1]);
    InterpretFrame(s, c, params, Start(ch), params[1]);
    ReplayFaithful(s, c, params, Start(ch), params[1], ch);
    AnnouncementFree(Interpret(s, c, params, Start(ch), params[1]).events, '\n');
    PrefixFree(s, c);
  }

  /** The changes a MODE by an operator makes. */
  function Changes(s: State, c: Client, n: string, params: seq<string>): seq<Event>
    requires n in s.channels && |params| > 1
  {
    Interpret(s, c, params, Start(s.channels[n]), params[1]).events
  }

  /** The announcement of a MODE that came from a line reads back as its changes exactly when the
      message is readable. */
  lemma ModeReadsIff(s: State, c: Client, n: string, params: seq<string>)
    requires Inv(s) && TextsOk(s) && c in s.clients && AllFree(params, '\n') && GoodParams(params)
    requires 1 < |params| <= MAX_PARAMS && n in s.channels && Changes(s, c, n, params) != []
    ensures var events := Changes(s, c, n, params);
      var told := ReadMode(Wire(ModeSet(Prefix(s, c), n, Announcement(events))));
      && told == Told(n, AsRead(events))
      && (told == Some((n, events)) <==> Readable(s, c, s.channels[n], params))
  {
    hide ReadMode, Wire, Interpret, TextsOk, Readable, AsRead, Middle;
    ChannelIsMiddle(s, n);
    ModeReplies(s, c, n, params);
    PrefixFree(s, c);
    ReadableIff(s, c, s.channels[n], params);
    ModeLine(Prefix(s, c), n, Changes(s, c, n, params));
  }

  lemma ChannelIsMiddle(s: State, n: string)
    requires Inv(s) && n in s.channels
    ensures Middle(n)
  {
    assert ChannelOk(s, n, s.channels[n]);
    NamesAreLines(n);
  }

  lemma ModeChangesGood(s: State, c: Client, n: string, params: seq<string>)
    requires Inv(s) && TextsOk(s) && c in s.clients && AllFree(params, '\n') && |params| > 1 && n in s.channels
    ensures AllGood(s, ModeChanges(s, c, n, params).r)
  {
    assert ChannelOk(s, n, s.channels[n]);
    ModeReplies(s, c, n, params);
    var run := Interpret(s, c, params, Start(s.channels[n]), params[1]);
    DeliverPlain(s, run.ch.members, null, ModeSet(Prefix(s, c), n, Announcement(run.events)));
  }

  lemma PlainIsGood(s: State, r: seq<Reply>)
    requires AllPlain(s, r)
    ensures AllGood(s, r)
  {
  }

  lemma CurrentModesFree(m: ModesRec)
    ensures Free(CurrentModes(m), '\n')
  {
  }

  lemma TellGood(s: State, c: Client, num: nat, msg: string)
    requires Inv(s) && c in s.clients && Known(num) && num > 4 && Free(msg, '\n')
    ensures AllGood(s, Tell(s, c, num, msg))
  {
    TellPlain(s, c, num, msg);
    PlainIsGood(s, Tell(s, c, num, msg));
  }

  lemma ModeGood(s: State, c: Client, params: seq<string>)
    requires Inv(s) && TextsOk(s) && c in s.clients && AllFree(params, '\n')
    ensures AllGood(s, ModeCmd(s, c, params).r)
  {
    hide Inv, TextsOk, AllGood, Tell, ModeChanges, CurrentModes;
    TellGood(s, c, 461, "MODE");
    if |params| >= 1 {
      var n := params[0];
      TellGood(s, c, 403, n);
      TellGood(s, c, 442, n);
      TellGood(s, c, 482, n);
      if n in s.channels {
        CurrentModesFree(s.channels[n].modes);
        TellGood(s, c, 324, n + " " + CurrentModes(s.channels[n].modes));
        if |params| > 1 {
          ModeChangesGood(s, c, n, params);
        }
      }
    }
  }

  // ----- Every reply of every command --------------------------------------------------------------

  lemma OthersPlain(s: State, c: Client, cmd: Command, m: Message)
    requires Inv(s) && TextsOk(s) && c in s.clients && FromLine(m)
    requires OpenToAll(cmd) || s.clients[c].registered
    requires !cmd.CmdPass? && !cmd.CmdNick? && !cmd.CmdUser? && !cmd.CmdMode?
    ensures AllPlain(s, Execute(s, c, cmd, m).r)
  {
    match cmd {
      case CmdJoin => JoinPlain(s, c, m.params);
      case CmdKick => KickPlain(s, c, m.params);
      case CmdInvite => InvitePlain(s, c, m.params);
      case CmdTopic => TopicPlain(s, c, m.params);
      case CmdPrivMsg => PrivMsgPlain(s, c, m.params);
      case CmdPing => PingPlain(s, c, m.params);
      case CmdCap => CapPlain(s, c, m.params);
      case CmdInvalid => TellPlain(s, c, 421, m.command);
    }
  }

  /** A reply is good in any state with the same connections. */
  lemma GoodElsewhere(s: State, t: State, r: seq<Reply>)
    requires s.byFd == t.byFd && AllGood(t, r)
    ensures AllGood(s, r)
  {
  }

  lemma PassGood(s: State, c: Client, params: seq<string>)
    requires Inv(s) && c in s.clients
    ensures AllGood(s, Pass(s, c, params).r)
  {
    TellPlain(s, c, 461, "PASS");
    TellPlain(s, c, 462, "");
    TellPlain(s, c, 464, "");
    NickChars(s, c);
    var t := s.WithRec(c, s.Rec(c).(passAccepted := true));
    RegisterReplies(t, c);
    GoodElsewhere(s, t, Register(t, c).r);
  }

  lemma ClaimedChars(s: State, c: Client, nick: string)
    requires Inv(s) && c in s.clients && ValidNick(nick)
    ensures var t := UpdateNickname(s, c, nick).0;
      c in t.clients && FdsAgree(t) && t.byFd == s.byFd && forall x | x in t.Rec(c).nickname :: NickChar(x)
  {
    UpdateNicknameInv(s, c, nick);
  }

  lemma NickGood(s: State, c: Client, params: seq<string>)
    requires Inv(s) && c in s.clients && AllFree(params, '\n')
    ensures AllGood(s, Nick(s, c, params).r)
  {
    hide Inv, ValidNick, Register, AllGood, Tell, UpdateNickname;
    TellGood(s, c, 431, "");
    if |params| >= 1 {
      TellGood(s, c, 432, params[0]);
      TellGood(s, c, 433, params[0]);
      if ValidNick(params[0]) {
        var t := UpdateNickname(s, c, params[0]).0;
        ClaimedChars(s, c, params[0]);
        RegisterReplies(t, c);
        GoodElsewhere(s, t, Register(t, c).r);
      }
    }
  }

  lemma UserGood(s: State, c: Client, params: seq<string>)
    requires Inv(s) && c in s.clients
    ensures AllGood(s, User(s, c, params).r)
  {
    TellPlain(s, c, 461, "USER");
    TellPlain(s, c, 462, "");
    NickChars(s, c);
    if |params| >= 4 {
      var t := s.WithRec(c, s.Rec(c).(username := params[0], realname := params[3]));
      RegisterReplies(t, c);
      GoodElsewhere(s, t, Register(t, c).r);
    }
  }

  lemma ExecuteGood(s: State, c: Client, cmd: Command, m: Message)
    requires Inv(s) && TextsOk(s) && c in s.clients && FromLine(m)
    requires OpenToAll(cmd) || s.clients[c].registered
    ensures AllGood(s, Execute(s, c, cmd, m).r)
  {
    hide Inv, TextsOk, AllGood, Pass, Nick, User, ModeCmd, Join, Kick, Invite, Topic, PrivMsgCmd, Ping, CapCmd;
    match cmd {
      case CmdPass => PassGood(s, c, m.params);
      case CmdNick => NickGood(s, c, m.params);
      case CmdUser => UserGood(s, c, m.params);
      case CmdMode => ModeGood(s, c, m.params);
      case _ =>
        OthersPlain(s, c, cmd, m);
        PlainIsGood(s, Execute(s, c, cmd, m).r);
    }
  }

  /** Every reply of every message is one line to a connection that is there before and after. */
  lemma DispatchGood(s: State, fd: int, m: Message)
    requires Inv(s) && TextsOk(s) && FromLine(m)
    ensures AllGood(s, Dispatch(s, fd, m).r)
    ensures Dispatch(s, fd, m).s.byFd == s.byFd
  {
    if fd in s.byFd {
      var c, cmd := s.byFd[fd], CommandOf(m.command);
      DispatchAuthority(s, fd, m);
      TellPlain(s, c, 451, m.command);
      if OpenToAll(cmd) || s.Rec(c).registered {
        ExecuteGood(s, c, cmd, m);
      }
    }
  }
}
