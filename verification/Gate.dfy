// What a connection can do before it is registered: log in, and nothing that anybody else notices.
module Gates {
  import opened Parser
  import opened Clients
  import opened Replies
  import opened Model
  import opened Commands
  import opened Delivery
  import opened Runs

  /** The commands that are for registered clients only. */
  const CLOSED: set<string> := {"JOIN", "PRIVMSG", "KICK", "INVITE", "TOPIC", "MODE", "PING"}

  /** The connection is there and is not registered. */
  ghost predicate Outsider(s: State, fd: int) {
    fd in s.byFd && !s.Rec(s.byFd[fd]).registered
  }

  /** Until it is registered a client that sends one of the seven commands gets one answer, 451 with the name of the
      command, and nothing happens. */
  lemma GateRefuses(s: State, fd: int, m: Message)
    requires Inv(s) && Outsider(s, fd) && m.command in CLOSED
    ensures Dispatch(s, fd, m)
         == Out(s, [Reply(fd, Numeric(TargetName(s.Rec(s.byFd[fd]).nickname), 451, m.command))])
  {
    CommandNames(m.command);
    hide Execute;
  }

  /** The state differs in clients and nicks at most, and every answer is the sender's own. */
  ghost predicate Private(s: State, fd: int, o: Out) {
    && o.s.channels == s.channels && o.s.byFd == s.byFd && o.s.password == s.password
    && forall x | x in o.r :: x.fd == fd
  }

  /** Nobody is answered 451. */
  ghost predicate GotThrough(o: Out) {
    forall x | x in o.r :: !(x.body.Numeric? && x.body.num == 451)
  }

  lemma AnswerPrivate(s: State, c: Client, num: nat, msg: string)
    requires num != 451
    ensures Private(s, c.socketFd, Refuse(s, c, num, msg)) && GotThrough(Refuse(s, c, num, msg))
  {
  }

  lemma RegisterPrivate(s: State, t: State, c: Client)
    requires t.channels == s.channels && t.byFd == s.byFd && t.password == s.password
    ensures Private(s, c.socketFd, Register(t, c)) && GotThrough(Register(t, c))
  {
    hide TargetName;
  }

  lemma PassPrivate(s: State, c: Client, params: seq<string>)
    ensures Private(s, c.socketFd, Pass(s, c, params)) && GotThrough(Pass(s, c, params))
  {
    hide Private, GotThrough, Register, Refuse;
    AnswerPrivate(s, c, 461, "PASS");
    AnswerPrivate(s, c, 462, "");
    AnswerPrivate(s, c, 464, "");
    RegisterPrivate(s, s.WithRec(c, s.Rec(c).(passAccepted := true)), c);
  }

  lemma NickPrivate(s: State, c: Client, params: seq<string>)
    ensures Private(s, c.socketFd, Nick(s, c, params)) && GotThrough(Nick(s, c, params))
  {
    hide Private, GotThrough, Register, Refuse, ValidNick;
    AnswerPrivate(s, c, 431, "");
    if |params| >= 1 {
      AnswerPrivate(s, c, 432, params[0]);
      AnswerPrivate(s, c, 433, params[0]);
      RegisterPrivate(s, UpdateNickname(s, c, params[0]).0, c);
    }
  }

  lemma UserPrivate(s: State, c: Client, params: seq<string>)
    ensures Private(s, c.socketFd, User(s, c, params)) && GotThrough(User(s, c, params))
  {
    hide Private, GotThrough, Register, Refuse;
    AnswerPrivate(s, c, 461, "USER");
    AnswerPrivate(s, c, 462, "");
    if |params| >= 4 {
      RegisterPrivate(s, s.WithRec(c, s.Rec(c).(username := params[0], realname := params[3])), c);
    }
  }

  lemma ServicePrivate(s: State, c: Client, m: Message)
    ensures Private(s, c.socketFd, CapCmd(s, c, m.params)) && GotThrough(CapCmd(s, c, m.params))
    ensures Private(s, c.socketFd, Refuse(s, c, 421, m.command)) && GotThrough(Refuse(s, c, 421, m.command))
  {
    AnswerPrivate(s, c, 421, m.command);
  }

  lemma OpenExecutes(s: State, fd: int, m: Message)
    requires fd in s.byFd && m.command !in CLOSED
    ensures Dispatch(s, fd, m) == Execute(s, s.byFd[fd], CommandOf(m.command), m)
    ensures OpenToAll(CommandOf(m.command))
  {
    hide Execute;
    CommandNames(m.command);
  }

  /** Whatever an unregistered client sends, no channel changes and nobody else is sent anything. The other commands
      get through to their handlers. */
  lemma OutsiderPrivate(s: State, fd: int, m: Message)
    requires Inv(s) && Outsider(s, fd)
    ensures Private(s, fd, Dispatch(s, fd, m))
    ensures GotThrough(Dispatch(s, fd, m)) <==> m.command !in CLOSED
  {
    var c, cmd := s.byFd[fd], CommandOf(m.command);
    assert c.socketFd == fd;
    if m.command in CLOSED {
      GateRefuses(s, fd, m);
      assert Dispatch(s, fd, m).r[0] in Dispatch(s, fd, m).r;
    } else {
      OpenExecutes(s, fd, m);
      hide Inv, Pass, Nick, User, CapCmd, Refuse, Private, GotThrough, Dispatch;
      match cmd {
        case CmdPass => PassPrivate(s, c, m.params);
        case CmdNick => NickPrivate(s, c, m.params);
        case CmdUser => UserPrivate(s, c, m.params);
        case CmdCap => ServicePrivate(s, c, m);
        case CmdInvalid => ServicePrivate(s, c, m);
      }
    }
  }

  /** A line of an unregistered connection. */
  ghost predicate OutsiderLine(s: State, st: Step) {
    st.Line? && Outsider(s, st.fd)
  }

  lemma {:induction false} NothingFor(r: seq<Reply>, fd: int, to: int)
    requires to != fd && forall x | x in r :: x.fd == fd
    ensures LinesTo(r, to) == []
  {
    if r == [] {
    } else {
      assert r[0] in r;
      NothingFor(r[1..], fd, to);
    }
  }

  lemma OutsiderStep(s: State, st: Step, to: int)
    requires Good(s) && OutsiderLine(s, st)
    ensures Next(s, st).s.channels == s.channels
    ensures to != st.fd ==> LinesTo(Next(s, st).r, to) == []
  {
    hide Dispatch, LinesTo;
    var m := Parsed(st.line);
    if m.command != "" {
      OutsiderPrivate(s, st.fd, m);
      if to != st.fd {
        NothingFor(Next(s, st).r, st.fd, to);
      }
    } else {
      NothingFor([], to + 1, to);
    }
  }

  /** What a connection hears of a run, when the lines that others send before they are registered are left out. */
  ghost function HeardOfInsiders(s: State, steps: seq<Step>, to: int): seq<string>
    decreases |steps|
  {
    if steps == [] then []
    else
      (if OutsiderLine(s, steps[0]) && steps[0].fd != to then [] else LinesTo(Next(s, steps[0]).r, to))
      + HeardOfInsiders(Next(s, steps[0]).s, steps[1..], to)
  }

  /** At no step of the run does a line of an unregistered connection change a channel. */
  ghost predicate ChannelsByInsiders(s: State, steps: seq<Step>)
    decreases |steps|
  {
    steps == [] ||
    ((OutsiderLine(s, steps[0]) ==> Next(s, steps[0]).s.channels == s.channels)
     && ChannelsByInsiders(Next(s, steps[0]).s, steps[1..]))
  }

  /** Over any run: what a connection hears it hears of registered clients and of itself, and no channel is ever
      changed by a line of a connection that is not registered then. */
  lemma {:induction false} OutsidersUnheard(s: State, steps: seq<Step>, to: int)
    requires Good(s) && LegalRun(s, steps)
    ensures Heard(s, steps, to) == HeardOfInsiders(s, steps, to)
    ensures ChannelsByInsiders(s, steps)
    decreases |steps|
  {
    hide Next, Good, Legal, LinesTo, OutsiderLine;
    if steps == [] {
    } else {
      StepGood(s, steps[0]);
      OutsidersUnheard(Next(s, steps[0]).s, steps[1..], to);
      if OutsiderLine(s, steps[0]) {
        OutsiderStep(s, steps[0], to);
      }
    }
  }
}
