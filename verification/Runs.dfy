// Whole runs of the server: any sequence of connections, lines and disconnects.
module Runs {
  import opened Text
  import opened Parser
  import opened Clients
  import opened Channels
  import opened Replies
  import opened Model
  import opened Mode
  import opened Reading
  import opened Commands
  import opened Safety
  import opened Answers
  import opened Delivery

  datatype Step =
    | Accept(fd: int, obj: Client)
    | Line(fd: int, line: string)
    | Disconnect(fd: int)

  /** Server::processMessage, without its buffers. */
  ghost function Process(s: State, fd: int, line: string): Out {
    var m := Parsed(line);
    if m.command == "" then Out(s, []) else Dispatch(s, fd, m)
  }

  /** A message that is sent as a line is dispatched as it is. */
  lemma LineDispatched(s: State, fd: int, m: Message)
    requires WellFormed(m) && m.command != "" && m.command[0] != ':'
    ensures Process(s, fd, Print(m)) == Dispatch(s, fd, m)
  {
    hide Dispatch;
    RoundTrip(m);
  }

  ghost function Next(s: State, st: Step): Out {
    match st
    case Accept(fd, obj) => Out(AddClient(s, fd, obj), [])
    case Line(fd, line) => Process(s, fd, line)
    case Disconnect(fd) => Out(RemoveClient(s, fd), [])
  }

  /** What the system and the framer guarantee: a fresh object per connection, lines without newline. */
  ghost predicate Legal(s: State, st: Step) {
    match st
    case Accept(fd, obj) => fd !in s.byFd && FreshObject(s, fd, obj)
    case Line(_, line) => Free(line, '\n')
    case Disconnect(_) => true
  }

  ghost predicate Good(s: State) {
    Inv(s) && TextsOk(s)
  }

  ghost predicate LegalRun(s: State, steps: seq<Step>)
    decreases |steps|
  {
    steps == [] || (Legal(s, steps[0]) && LegalRun(Next(s, steps[0]).s, steps[1..]))
  }

  ghost function After(s: State, steps: seq<Step>): State
    decreases |steps|
  {
    if steps == [] then s else After(Next(s, steps[0]).s, steps[1..])
  }

  lemma StepGood(s: State, st: Step)
    requires Good(s) && Legal(s, st)
    ensures Good(Next(s, st).s)
  {
    match st {
      case Accept(fd, obj) => AddClientInv(s, fd, obj);
      case Line(fd, line) =>
        ParsedFromLine(line);
        DispatchInv(s, fd, Parsed(line));
        DispatchTexts(s, fd, Parsed(line));
      case Disconnect(fd) => RemoveClientInv(s, fd);
    }
  }

  /** The invariant holds in every reachable state. */
  lemma {:induction false} RunGood(s: State, steps: seq<Step>)
    requires Good(s) && LegalRun(s, steps)
    ensures Good(After(s, steps))
    decreases |steps|
  {
    if steps == [] {
    } else {
      StepGood(s, steps[0]);
      RunGood(Next(s, steps[0]).s, steps[1..]);
    }
  }

  lemma {:induction false} AfterAppend(s: State, steps: seq<Step>, st: Step)
    requires LegalRun(s, steps) && Legal(After(s, steps), st)
    ensures LegalRun(s, steps + [st]) && After(s, steps + [st]) == Next(After(s, steps), st).s
    decreases |steps|
  {
    var all := steps + [st];
    if steps == [] {
      assert all[1..] == [];
    } else {
      AfterAppend(Next(s, steps[0]).s, steps[1..], st);
      assert all[0] == steps[0] && all[1..] == steps[1..] + [st];
    }
  }

  // ----- One channel over one step --------------------------------------------------------------

  /** `n` exists now and after every step of the run. */
  ghost predicate Lives(s: State, steps: seq<Step>, n: string)
    decreases |steps|
  {
    n in s.channels && (steps == [] || Lives(Next(s, steps[0]).s, steps[1..], n))
  }

  /** The two ways a channel that is there before and after a step may have changed. */
  lemma ChannelStep(s: State, st: Step, n: string)
    requires Good(s) && Legal(s, st) && n in s.channels && n in Next(s, st).s.channels
    ensures var a, b := s.channels[n], Next(s, st).s.channels[n];
      || b == a
      || (st.Line? && st.fd in s.byFd && ChannelLawful(a, b, s.byFd[st.fd]))
      || (st.Disconnect? && st.fd in s.byFd && b == a.Without(s.byFd[st.fd]))
  {
    if st.Line? && st.fd in s.byFd {
      DispatchAuthority(s, st.fd, Parsed(st.line));
    }
  }

  // ----- A channel without operators is frozen ----------------------------------------------------

  ghost predicate Leaves(steps: seq<Step>, d: Client) {
    exists i | 0 <= i < |steps| :: steps[i] == Disconnect(d.socketFd)
  }

  /** What stays of a channel that nobody operates. */
  ghost predicate Frozen(a: ChanRec, b: ChanRec) {
    && b.operators == {} && b.modes == a.modes && b.invited <= a.invited
    && (a.modes.topicRestricted ==> b.topic == a.topic)
  }

  lemma FrozenStep(s: State, st: Step, n: string)
    requires Good(s) && Legal(s, st) && n in s.channels && n in Next(s, st).s.channels
    requires s.channels[n].operators == {}
    ensures Frozen(s.channels[n], Next(s, st).s.channels[n])
    ensures forall d | d in s.channels[n].members ::
      d in Next(s, st).s.channels[n].members || st == Disconnect(d.socketFd)
  {
    ChannelStep(s, st, n);
  }

  /** A channel that has lost its last operator never gets one again: its modes stay, nobody is
      invited, the topic stays under +t, and members leave only by disconnecting. */
  lemma {:induction false} FrozenForLife(s: State, steps: seq<Step>, n: string)
    requires Good(s) && LegalRun(s, steps) && Lives(s, steps, n)
    requires s.channels[n].operators == {}
    ensures n in After(s, steps).channels && Frozen(s.channels[n], After(s, steps).channels[n])
    ensures forall d | d in s.channels[n].members :: d in After(s, steps).channels[n].members || Leaves(steps, d)
    decreases |steps|
  {
    hide Next, Good, Legal;
    if steps == [] {
    } else {
      var t := Next(s, steps[0]).s;
      StepGood(s, steps[0]);
      FrozenStep(s, steps[0], n);
      FrozenForLife(t, steps[1..], n);
      forall d | d in s.channels[n].members ensures d in After(s, steps).channels[n].members || Leaves(steps, d) {
        if d !in t.channels[n].members {
          assert steps[0] == Disconnect(d.socketFd);
        } else if Leaves(steps[1..], d) {
          var i :| 0 <= i < |steps[1..]| && steps[1..][i] == Disconnect(d.socketFd);
          assert steps[i + 1] == Disconnect(d.socketFd);
        }
      }
    }
  }

  // ----- Who can become an operator ------------------------------------------------------------------

  /** The step brings `n` into being, with its sender alone in it, as operator. */
  ghost predicate Creates(s: State, st: Step, n: string) {
    && st.Line? && st.fd in s.byFd && n !in s.channels
    && var t := Next(s, st).s; n in t.channels && t.channels[n] == Created(n, s.byFd[st.fd])
  }

  /** The step makes `d` an operator of `n`: it creates the channel for it, or it is a MODE by an operator
      of the channel that names `d` under +o. */
  ghost predicate MakesOperator(s: State, st: Step, n: string, d: Client) {
    && st.Line? && st.fd in s.byFd
    && ((d == s.byFd[st.fd] && Creates(s, st, n)) || PromotedBy(s, s.byFd[st.fd], Parsed(st.line), n, d))
  }

  /** Some step of the run makes `d` an operator of `n`. */
  ghost predicate Made(s: State, steps: seq<Step>, n: string, d: Client)
    decreases |steps|
  {
    steps != [] && (MakesOperator(s, steps[0], n, d) || Made(Next(s, steps[0]).s, steps[1..], n, d))
  }

  lemma OperatorStep(s: State, st: Step, n: string, d: Client)
    requires Good(s) && Legal(s, st)
    requires !(n in s.channels && d in s.channels[n].operators)
    requires var t := Next(s, st).s; n in t.channels && d in t.channels[n].operators
    ensures MakesOperator(s, st, n, d)
  {
    hide Execute, PromotedBy;
    if st.Line? && st.fd in s.byFd && Parsed(st.line).command != "" {
      if n in s.channels {
        DispatchOperators(s, st.fd, Parsed(st.line), n, d);
      } else {
        BornPlain(s, st, n);
      }
    }
  }

  /** Whoever operates a channel at the end of a run did so at the start, created it, or was named under
      +o by somebody who operated it then. */
  lemma {:induction false} OperatorsAreMade(s: State, steps: seq<Step>, n: string, d: Client)
    requires Good(s) && LegalRun(s, steps)
    requires var t := After(s, steps); n in t.channels && d in t.channels[n].operators
    ensures (n in s.channels && d in s.channels[n].operators) || Made(s, steps, n, d)
    decreases |steps|
  {
    hide Next, Good, Legal, MakesOperator;
    if steps == [] {
    } else {
      var t := Next(s, steps[0]).s;
      StepGood(s, steps[0]);
      OperatorsAreMade(t, steps[1..], n, d);
      if n in t.channels && d in t.channels[n].operators && !(n in s.channels && d in s.channels[n].operators) {
        OperatorStep(s, steps[0], n, d);
      }
    }
  }

  // ----- A kicked client stays out of a +i channel -------------------------------------------------

  /** An operator invites `d` to `n` with this step. */
  ghost predicate Invites(s: State, st: Step, n: string, d: Client) {
    st.Line? && st.fd in s.byFd && InvitedBy(s, s.byFd[st.fd], Parsed(st.line), n, d)
  }

  /** Throughout the run the channel exists, is +i, and no operator invites `d`. */
  ghost predicate Shut(s: State, steps: seq<Step>, n: string, d: Client)
    decreases |steps|
  {
    && n in s.channels && s.channels[n].modes.inviteOnly
    && (steps == [] || (!Invites(s, steps[0], n, d) && Shut(Next(s, steps[0]).s, steps[1..], n, d)))
  }

  ghost predicate Outside(s: State, n: string, d: Client) {
    n in s.channels ==> d !in s.channels[n].members && d !in s.channels[n].invited
  }

  lemma OutsideStep(s: State, st: Step, n: string, d: Client)
    requires Good(s) && Legal(s, st) && n in s.channels && n in Next(s, st).s.channels
    requires s.channels[n].modes.inviteOnly && Outside(s, n, d) && !Invites(s, st, n, d)
    ensures Outside(Next(s, st).s, n, d)
  {
    ChannelStep(s, st, n);
    if st.Line? && st.fd in s.byFd && d in Next(s, st).s.channels[n].invited {
      DispatchInvitations(s, st.fd, Parsed(st.line), n, d);
    }
  }

  lemma {:induction false} StaysOutside(s: State, steps: seq<Step>, n: string, d: Client)
    requires Good(s) && LegalRun(s, steps) && Shut(s, steps, n, d) && Outside(s, n, d)
    ensures Outside(After(s, steps), n, d)
    decreases |steps|
  {
    if steps == [] {
    } else {
      StepGood(s, steps[0]);
      OutsideStep(s, steps[0], n, d);
      StaysOutside(Next(s, steps[0]).s, steps[1..], n, d);
    }
  }

  /** A KICK takes the invitation with the membership. */
  lemma KickErases(s: State, c: Client, params: seq<string>, n: string, d: Client)
    requires Inv(s) && c in s.clients && n in s.channels && d in s.channels[n].members
    requires var t := Kick(s, c, params).s; n in t.channels ==> d !in t.channels[n].members
    ensures Outside(Kick(s, c, params).s, n, d)
  {
    KickEquation(s, c, params);
  }

  /** A client that was kicked from a +i channel is not in it at the end of any later run in which the
      channel stays and stays +i and no operator invites the client again. */
  lemma KickedStaysOut(s: State, fd: int, line: string, steps: seq<Step>, n: string, d: Client)
    requires Good(s) && Free(line, '\n') && fd in s.byFd && CommandOf(Parsed(line).command).CmdKick?
    requires n in s.channels && d in s.channels[n].members
    requires var t := Process(s, fd, line).s;
      (n in t.channels ==> d !in t.channels[n].members) && LegalRun(t, steps) && Shut(t, steps, n, d)
    ensures Outside(After(Process(s, fd, line).s, steps), n, d)
  {
    var t := Process(s, fd, line).s;
    StepGood(s, Line(fd, line));
    assert t == Kick(s, s.byFd[fd], Parsed(line).params).s by {
      assert t != s;
    }
    KickErases(s, s.byFd[fd], Parsed(line).params, n, d);
    StaysOutside(t, steps, n, d);
  }

  // ----- Limits --------------------------------------------------------------------------------------

  /** Throughout the run the channel exists with the same limit in force. */
  ghost predicate Limited(s: State, steps: seq<Step>, n: string, limit: int)
    decreases |steps|
  {
    && n in s.channels && s.channels[n].modes.memberLimited && s.channels[n].modes.maxMember == limit
    && (steps == [] || Limited(Next(s, steps[0]).s, steps[1..], n, limit))
  }

  lemma Smaller<T>(a: set<T>, b: set<T>)
    requires a <= b
    ensures |a| <= |b|
  {
    assert b == a + (b - a);
  }

  /** One step cannot push a limited channel over its limit. */
  lemma LimitStep(s: State, st: Step, n: string, limit: int)
    requires Good(s) && Legal(s, st) && n in s.channels && n in Next(s, st).s.channels
    requires s.channels[n].modes.memberLimited && s.channels[n].modes.maxMember == limit
    ensures var a, b := s.channels[n], Next(s, st).s.channels[n];
      |b.members| <= limit || |b.members| <= |a.members|
  {
    ChannelStep(s, st, n);
    var a, b := s.channels[n], Next(s, st).s.channels[n];
    if b.members <= a.members {
      Smaller(b.members, a.members);
    } else {
      var c := s.byFd[st.fd];
      assert c in b.members - a.members;
    }
  }

  /** While a limit is in force the channel is no larger than the limit, or than it was when the
      limit was set. */
  lemma {:induction false} LimitHolds(s: State, steps: seq<Step>, n: string, limit: int)
    requires Good(s) && LegalRun(s, steps) && Limited(s, steps, n, limit)
    ensures n in After(s, steps).channels
    ensures var size := |After(s, steps).channels[n].members|; size <= limit || size <= |s.channels[n].members|
    decreases |steps|
  {
    if steps == [] {
    } else {
      StepGood(s, steps[0]);
      LimitStep(s, steps[0], n, limit);
      LimitHolds(Next(s, steps[0]).s, steps[1..], n, limit);
    }
  }

  // ----- What a connection hears over a run ------------------------------------------------------------

  ghost function Heard(s: State, steps: seq<Step>, fd: int): seq<string>
    decreases |steps|
  {
    if steps == [] then []
    else LinesTo(Next(s, steps[0]).r, fd) + Heard(Next(s, steps[0]).s, steps[1..], fd)
  }

  lemma ModeNoWelcome(s: State, c: Client, params: seq<string>, d: Client, k: nat)
    requires Good(s) && c in s.clients && AllFree(params, '\n') && 1 <= k <= 4
    ensures WelcomesRight(s, ModeCmd(s, c, params), d, k)
  {
    ModeQuiet(s, c, params);
    QuietCount(ModeCmd(s, c, params).r, d.socketFd, k);
  }

  lemma ModeQuiet(s: State, c: Client, params: seq<string>)
    requires Good(s) && c in s.clients && AllFree(params, '\n')
    ensures forall x | x in ModeCmd(s, c, params).r :: NoWelcome(x.body)
  {
    hide Interpret, Deliver, Inv, TextsOk;
    ModeGood(s, c, params);
    if |params| > 1 && params[0] in s.channels {
      ModeReplies(s, c, params[0], params);
      var run := Interpret(s, c, params, Start(s.channels[params[0]]), params[1]);
      DeliverAll(run.ch.members, null, ModeSet(Prefix(s, c), params[0], Announcement(run.events)));
    }
  }

  lemma PlainNoWelcome(s: State, c: Client, cmd: Command, m: Message, d: Client, k: nat)
    requires Good(s) && c in s.clients && d in s.clients && FromLine(m) && 1 <= k <= 4
    requires OpenToAll(cmd) || s.clients[c].registered
    requires !cmd.CmdPass? && !cmd.CmdNick? && !cmd.CmdUser? && !cmd.CmdMode?
    ensures WelcomesRight(s, Execute(s, c, cmd, m), d, k)
  {
    OthersPlain(s, c, cmd, m);
    QuietCount(Execute(s, c, cmd, m).r, d.socketFd, k);
    OthersTame(s, c, cmd, m);
  }

  /** Records stay, and so do the modes of every channel that stays. */
  ghost predicate Tame(s: State, t: State) {
    && t.clients == s.clients
    && forall n | n in s.channels && n in t.channels :: t.channels[n].modes == s.channels[n].modes
  }

  lemma JoinTame(s: State, c: Client, params: seq<string>)
    requires Inv(s) && c in s.clients && s.clients[c].registered
    ensures Tame(s, Join(s, c, params).s)
  {
    JoinKeeps(s, c, params);
  }

  lemma KickTame(s: State, c: Client, params: seq<string>)
    requires Inv(s) && c in s.clients
    ensures Tame(s, Kick(s, c, params).s)
  {
    KickEquation(s, c, params);
  }

  lemma InviteTame(s: State, c: Client, params: seq<string>)
    ensures Tame(s, Invite(s, c, params).s)
  {
  }

  lemma TopicTame(s: State, c: Client, params: seq<string>)
    ensures Tame(s, Topic(s, c, params).s)
  {
    hide Deliver;
  }

  lemma QuietTame(s: State, c: Client, cmd: Command, m: Message)
    requires cmd.CmdPrivMsg? || cmd.CmdPing? || cmd.CmdCap? || cmd.CmdInvalid?
    ensures Tame(s, Execute(s, c, cmd, m).s)
  {
    hide SendMany, Pass, Nick, User, Join, Kick, Invite, Topic, ModeCmd;
  }

  lemma OthersTame(s: State, c: Client, cmd: Command, m: Message)
    requires Inv(s) && c in s.clients
    requires OpenToAll(cmd) || s.clients[c].registered
    requires !cmd.CmdPass? && !cmd.CmdNick? && !cmd.CmdUser? && !cmd.CmdMode?
    ensures Tame(s, Execute(s, c, cmd, m).s)
  {
    match cmd {
      case CmdJoin => JoinTame(s, c, m.params);
      case CmdKick => KickTame(s, c, m.params);
      case CmdInvite => InviteTame(s, c, m.params);
      case CmdTopic => TopicTame(s, c, m.params);
      case _ => QuietTame(s, c, cmd, m);
    }
  }

  /** One step welcomes `d` exactly when it registers `d`. */
  lemma StepWelcomes(s: State, st: Step, d: Client, k: nat)
    requires Good(s) && Legal(s, st) && d in s.clients && st != Disconnect(d.socketFd) && 1 <= k <= 4
    ensures d in Next(s, st).s.clients && WelcomesRight(s, Next(s, st), d, k)
    ensures s.Rec(d).registered ==> Next(s, st).s.Rec(d).registered
  {
    if st.Line? && st.fd in s.byFd && Parsed(st.line).command != "" {
      var c, m := s.byFd[st.fd], Parsed(st.line);
      var cmd := CommandOf(m.command);
      ParsedFromLine(st.line);
      DispatchStaysRegistered(s, st.fd, m, d);
      if !OpenToAll(cmd) && !s.Rec(c).registered {
        RefuseWelcomes(s, c, 451, m.command, d, k);
      } else {
        match cmd {
          case CmdPass => PassWelcomes(s, c, m.params, d, k);
          case CmdNick => NickWelcomes(s, c, m.params, d, k);
          case CmdUser => UserWelcomes(s, c, m.params, d, k);
          case CmdMode => ModeNoWelcome(s, c, m.params, d, k);
          case _ => PlainNoWelcome(s, c, cmd, m, d, k);
        }
      }
    }
  }

  lemma RegisteredStays(s: State, c: Client, params: seq<string>)
    requires c in s.clients && s.clients[c].registered
    ensures Pass(s, c, params).s.Rec(c).registered
    ensures Nick(s, c, params).s.Rec(c).registered
    ensures User(s, c, params).s.Rec(c).registered
  {
  }

  lemma DispatchStaysRegistered(s: State, fd: int, m: Message, d: Client)
    requires Inv(s) && fd in s.byFd && d in s.clients
    ensures d in Dispatch(s, fd, m).s.clients
    ensures s.Rec(d).registered ==> Dispatch(s, fd, m).s.Rec(d).registered
  {
    hide ChannelsLawful, Inv, Pass, Nick, User, Join, Kick, Invite, Topic, PrivMsgCmd, Ping, CapCmd, Interpret;
    var c, cmd := s.byFd[fd], CommandOf(m.command);
    DispatchAuthority(s, fd, m);
    if d == c && s.clients[c].registered {
      match cmd {
        case CmdPass => RegisteredStays(s, c, m.params);
        case CmdNick => RegisteredStays(s, c, m.params);
        case CmdUser => RegisteredStays(s, c, m.params);
        case CmdMode =>
        case _ => OthersTame(s, c, cmd, m);
      }
    }
  }

  /** Over a connection's life each of 001 to 004 is sent exactly once if it registers, and never
      otherwise; whether it is registered is decided by its record alone. */
  lemma {:induction false} WelcomedOnce(s: State, steps: seq<Step>, d: Client, k: nat)
    requires Good(s) && LegalRun(s, steps) && d in s.clients && !Leaves(steps, d) && 1 <= k <= 4
    ensures var t := After(s, steps);
      && d in t.clients
      && (t.clients[d].registered <==> t.clients[d].Complete())
      && Count(Heard(s, steps, d.socketFd), k) == Registers(s, t, d)
      && (s.clients[d].registered ==> t.clients[d].registered)
    decreases |steps|
  {
    if steps == [] {
    } else {
      var o := Next(s, steps[0]);
      assert steps[0] != Disconnect(d.socketFd);
      StepGood(s, steps[0]);
      StepWelcomes(s, steps[0], d, k);
      assert forall i | 0 <= i < |steps[1..]| :: steps[1..][i] == steps[i + 1];
      WelcomedOnce(o.s, steps[1..], d, k);
      CountConcat(LinesTo(o.r, d.socketFd), Heard(o.s, steps[1..], d.socketFd), k);
    }
  }

  // ----- The password ---------------------------------------------------------------------------------

  /** The step is a PASS with the server's password, sent by `d`. */
  predicate SendsPassword(s: State, st: Step, d: Client) {
    && st.Line? && st.fd == d.socketFd
    && var m := Parsed(st.line);
      CommandOf(m.command).CmdPass? && |m.params| >= 1 && m.params[0] == s.password
  }

  lemma LoginPassword(s: State, c: Client, params: seq<string>)
    requires c in s.clients
    ensures Nick(s, c, params).s.Rec(c).passAccepted == s.Rec(c).passAccepted
    ensures User(s, c, params).s.Rec(c).passAccepted == s.Rec(c).passAccepted
  {
    hide ValidNick, Welcome, Tell, Freed;
  }

  lemma PassPassword(s: State, c: Client, params: seq<string>)
    requires c in s.clients
    ensures Pass(s, c, params).s.Rec(c).passAccepted ==>
      s.Rec(c).passAccepted || (|params| >= 1 && params[0] == s.password)
  {
  }

  lemma StepPassword(s: State, st: Step, d: Client)
    requires Good(s) && Legal(s, st) && d in s.clients && st != Disconnect(d.socketFd)
    ensures var t := Next(s, st).s;
      && d in t.clients && t.password == s.password
      && (t.clients[d].passAccepted && !s.clients[d].passAccepted ==> SendsPassword(s, st, d))
  {
    hide Pass, Nick, User, Join, Kick, Invite, Topic, PrivMsgCmd, Ping, CapCmd, Interpret, ChannelsLawful;
    if st.Line? && st.fd in s.byFd && Parsed(st.line).command != "" {
      var c, m := s.byFd[st.fd], Parsed(st.line);
      var cmd := CommandOf(m.command);
      DispatchAuthority(s, st.fd, m);
      if d == c && (OpenToAll(cmd) || s.Rec(c).registered) {
        match cmd {
          case CmdPass => PassPassword(s, c, m.params);
          case CmdNick => LoginPassword(s, c, m.params);
          case CmdUser => LoginPassword(s, c, m.params);
          case CmdMode =>
          case _ => OthersTame(s, c, cmd, m);
        }
      }
    }
  }

  /** Nobody gets in without the password: a client registered at the end of a run has sent it. */
  lemma {:induction false} PasswordNeeded(s: State, steps: seq<Step>, d: Client)
    requires Good(s) && LegalRun(s, steps) && d in s.clients && !Leaves(steps, d) && !s.clients[d].passAccepted
    ensures d in After(s, steps).clients
    ensures After(s, steps).clients[d].registered ==> exists i | 0 <= i < |steps| :: SendsPassword(s, steps[i], d)
    decreases |steps|
  {
    hide Next, Legal;
    if steps == [] {
    } else {
      var t := Next(s, steps[0]).s;
      assert steps[0] != Disconnect(d.socketFd);
      StepGood(s, steps[0]);
      StepPassword(s, steps[0], d);
      assert forall i | 0 <= i < |steps[1..]| :: steps[1..][i] == steps[i + 1];
      if t.clients[d].passAccepted {
        StaysThere(t, steps[1..], d);
        assert SendsPassword(s, steps[0], d);
      } else {
        PasswordNeeded(t, steps[1..], d);
        if After(s, steps).clients[d].registered {
          var i :| 0 <= i < |steps[1..]| && SendsPassword(t, steps[1..][i], d);
          assert SendsPassword(s, steps[i + 1], d);
        }
      }
    }
  }

  lemma {:induction false} StaysThere(s: State, steps: seq<Step>, d: Client)
    requires Good(s) && LegalRun(s, steps) && d in s.clients && !Leaves(steps, d)
    ensures d in After(s, steps).clients
    decreases |steps|
  {
    hide Next, Legal;
    if steps == [] {
    } else {
      assert steps[0] != Disconnect(d.socketFd);
      StepGood(s, steps[0]);
      StepPassword(s, steps[0], d);
      assert forall i | 0 <= i < |steps[1..]| :: steps[1..][i] == steps[i + 1];
      StaysThere(Next(s, steps[0]).s, steps[1..], d);
    }
  }

  lemma StepPasswordAlways(s: State, st: Step, d: Client)
    requires Good(s) && Legal(s, st) && !(d in s.clients && s.clients[d].passAccepted)
    requires d in Next(s, st).s.clients && Next(s, st).s.clients[d].passAccepted
    ensures SendsPassword(s, st, d)
  {
    if d in s.clients {
      hide Process;
      if st != Disconnect(d.socketFd) {
        StepPassword(s, st, d);
      }
    } else if st.Line? && st.fd in s.byFd {
      hide Pass, Nick, User, Join, Kick, Invite, Topic, PrivMsgCmd, Ping, CapCmd, Interpret;
      DispatchAuthority(s, st.fd, Parsed(st.line));
    }
  }

  /** Nobody has passed without the password: whoever is accepted at the end of a run, and was not at its start, has
      sent it, be it a client of the start or one that has come since. */
  lemma {:induction false} PasswordAlways(s: State, steps: seq<Step>, d: Client)
    requires Good(s) && LegalRun(s, steps) && !(d in s.clients && s.clients[d].passAccepted)
    requires d in After(s, steps).clients && After(s, steps).clients[d].passAccepted
    ensures exists i | 0 <= i < |steps| :: SendsPassword(s, steps[i], d)
    decreases |steps|
  {
    hide Next, Legal, Good;
    if steps == [] {
    } else {
      var t := Next(s, steps[0]).s;
      StepGood(s, steps[0]);
      if d in t.clients && t.clients[d].passAccepted {
        StepPasswordAlways(s, steps[0], d);
      } else {
        PasswordAlways(t, steps[1..], d);
        StepPasswordKept(s, steps[0]);
        var i :| 0 <= i < |steps[1..]| && SendsPassword(t, steps[1..][i], d);
        assert SendsPassword(s, steps[i + 1], d);
      }
    }
  }

  lemma StepPasswordKept(s: State, st: Step)
    requires Good(s) && Legal(s, st)
    ensures Next(s, st).s.password == s.password
  {
    hide Pass, Nick, User, Join, Kick, Invite, Topic, PrivMsgCmd, Ping, CapCmd, Interpret;
    if st.Line? && st.fd in s.byFd {
      DispatchAuthority(s, st.fd, Parsed(st.line));
    }
  }

  /** From the start of the server: a registered client has sent a PASS with the server's password. */
  lemma RegisteredSentPassword(password: string, steps: seq<Step>, d: Client)
    requires LegalRun(NewServer(password), steps)
    requires d in After(NewServer(password), steps).clients && After(NewServer(password), steps).clients[d].registered
    ensures exists i | 0 <= i < |steps| ::
      && steps[i].Line? && steps[i].fd == d.socketFd
      && var m := Parsed(steps[i].line); m.command == "PASS" && |m.params| >= 1 && m.params[0] == password
  {
    var s := NewServer(password);
    NewServerInv(password);
    RunGood(s, steps);
    assert After(s, steps).clients[d].Complete();
    hide After, LegalRun, Good, Inv;
    PasswordAlways(s, steps, d);
    var i :| 0 <= i < |steps| && SendsPassword(s, steps[i], d);
    CommandNames(Parsed(steps[i].line).command);
  }

  // ----- Following the modes of a channel ---------------------------------------------------------------

  /** A MODE message with which `c`, an operator of `n`, can change the modes of `n`. */
  ghost predicate Alters(s: State, c: Client, m: Message, n: string) {
    CommandOf(m.command).CmdMode? && |m.params| > 1 && m.params[0] == n
    && n in s.channels && c in s.channels[n].operators
  }

  /** If the step is a MODE by an operator of `n`, its announcement reads back as the changes made, or misreading
      it is harmless. */
  ghost predicate Followable(s: State, st: Step, n: string) {
    st.Line? && st.fd in s.byFd && Alters(s, s.byFd[st.fd], Parsed(st.line), n) ==>
      Conveyed(s, s.byFd[st.fd], n, Parsed(st.line).params)
  }

  /** Every step of the run is followable. */
  ghost predicate AllFollowable(s: State, steps: seq<Step>, n: string)
    decreases |steps|
  {
    steps == [] || (Followable(s, steps[0], n) && AllFollowable(Next(s, steps[0]).s, steps[1..], n))
  }

  /** Only MODE changes the modes of a channel that stays. */
  lemma OthersKeepModes(s: State, c: Client, cmd: Command, m: Message, n: string)
    requires Inv(s) && c in s.clients && n in s.channels && n in Execute(s, c, cmd, m).s.channels
    requires OpenToAll(cmd) || s.clients[c].registered
    requires !cmd.CmdMode?
    ensures Execute(s, c, cmd, m).s.channels[n].modes == s.channels[n].modes
  {
    match cmd {
      case CmdPass => PassKeeps(s, c, m.params);
      case CmdNick => NickKeeps(s, c, m.params);
      case CmdUser => UserKeeps(s, c, m.params);
      case _ => OthersTame(s, c, cmd, m);
    }
  }

  lemma RegisterNotMode(s: State, c: Client)
    ensures NotMode(Register(s, c).r)
  {
  }

  lemma RefuseNotMode(s: State, c: Client, num: nat, msg: string)
    requires Known(num)
    ensures NotMode(Refuse(s, c, num, msg).r)
  {
  }

  lemma PassNotMode(s: State, c: Client, params: seq<string>)
    ensures NotMode(Pass(s, c, params).r)
  {
    RefuseNotMode(s, c, 461, "PASS");
    RefuseNotMode(s, c, 462, "");
    RefuseNotMode(s, c, 464, "");
    RegisterNotMode(s.WithRec(c, s.Rec(c).(passAccepted := true)), c);
  }

  lemma NickNotMode(s: State, c: Client, params: seq<string>)
    ensures NotMode(Nick(s, c, params).r)
  {
    RefuseNotMode(s, c, 431, "");
    if |params| >= 1 {
      RefuseNotMode(s, c, 432, params[0]);
      RefuseNotMode(s, c, 433, params[0]);
      RegisterNotMode(UpdateNickname(s, c, params[0]).0, c);
    }
  }

  lemma UserNotMode(s: State, c: Client, params: seq<string>)
    ensures NotMode(User(s, c, params).r)
  {
    RefuseNotMode(s, c, 461, "USER");
    RefuseNotMode(s, c, 462, "");
    if |params| >= 4 {
      RegisterNotMode(s.WithRec(c, s.Rec(c).(username := params[0], realname := params[3])), c);
    }
  }

  lemma PlainNotMode(s: State, r: seq<Reply>)
    requires AllPlain(s, r)
    ensures NotMode(r)
  {
  }

  lemma OtherNotMode(s: State, c: Client, cmd: Command, m: Message)
    requires Good(s) && c in s.clients && FromLine(m)
    requires OpenToAll(cmd) || s.clients[c].registered
    requires !cmd.CmdMode?
    ensures NotMode(Execute(s, c, cmd, m).r)
  {
    hide Inv, TextsOk, FromLine,
      AllPlain, NotMode, Pass, Nick, User, Join, Kick, Invite, Topic, PrivMsgCmd, Ping, CapCmd;
    match cmd {
      case CmdPass => PassNotMode(s, c, m.params);
      case CmdNick => NickNotMode(s, c, m.params);
      case CmdUser => UserNotMode(s, c, m.params);
      case _ =>
        OthersPlain(s, c, cmd, m);
        PlainNotMode(s, Execute(s, c, cmd, m).r);
    }
  }

  /** What the lines of this step make of the copy that `d` has of the modes of the channel. */
  function CopyAfter(copy: ModesRec, o: Out, n: string, d: Client): ModesRec {
    Follow(copy, LinesTo(o.r, d.socketFd), n)
  }

  /** A reader `d` of this step's lines for the channel ends with its new modes. */
  ghost predicate Followed(s: State, o: Out, n: string, d: Client) {
    n in s.channels && n in o.s.channels && CopyAfter(s.channels[n].modes, o, n, d) == o.s.channels[n].modes
  }

  /** `d` follows the step exactly when it is `followable`; otherwise its copy stays as it was, or is wrong in the key
      alone or in the limit alone. */
  ghost predicate FollowedIff(followable: bool, s: State, o: Out, n: string, d: Client) {
    && (Followed(s, o, n, d) <==> followable)
    && n in s.channels && n in o.s.channels
    && var copy := CopyAfter(s.channels[n].modes, o, n, d);
       copy == s.channels[n].modes || NearlyRight(copy, o.s.channels[n].modes)
  }

  lemma FollowedSurely(s: State, o: Out, n: string, d: Client)
    requires Followed(s, o, n, d)
    ensures FollowedIff(true, s, o, n, d)
  {
  }

  lemma OtherCommandFollowed(s: State, c: Client, cmd: Command, m: Message, n: string, d: Client)
    requires Good(s) && c in s.clients && FromLine(m) && n in s.channels && n in Execute(s, c, cmd, m).s.channels
    requires OpenToAll(cmd) || s.clients[c].registered
    requires !cmd.CmdMode?
    ensures Followed(s, Execute(s, c, cmd, m), n, d)
  {
    hide Execute, Follow, LinesTo;
    OtherNotMode(s, c, cmd, m);
    OthersKeepModes(s, c, cmd, m, n);
    FollowQuiet(s.channels[n].modes, Execute(s, c, cmd, m).r, d.socketFd, n);
  }

  lemma ModeCmdFollowed(s: State, c: Client, m: Message, n: string, d: Client)
    requires Good(s) && c in s.clients && FromLine(m) && n in s.channels && d in s.channels[n].members
    requires CommandOf(m.command).CmdMode?
    ensures FollowedIff(Alters(s, c, m, n) ==> Conveyed(s, c, n, m.params), s, ModeCmd(s, c, m.params), n, d)
  {
    hide Follow, LinesTo, Conveyed, ModeChanges, NearlyRight;
    var params := m.params;
    if |params| > 1 && params[0] in s.channels && c in s.channels[params[0]].operators {
      OperatorFacts(s, c, params[0]);
      OperatorMode(s, c, params);
      ModeFollowed(s, c, params[0], params, d, n);
      ModeStays(s, c, params[0], params, n);
    } else {
      ModeRefused(s, c, params);
      FollowQuiet(s.channels[n].modes, ModeCmd(s, c, params).r, d.socketFd, n);
      FollowedSurely(s, ModeCmd(s, c, params), n, d);
    }
  }

  lemma OperatorMode(s: State, c: Client, params: seq<string>)
    requires |params| > 1 && params[0] in s.channels
    requires c in s.channels[params[0]].members && c in s.channels[params[0]].operators
    ensures ModeCmd(s, c, params) == ModeChanges(s, c, params[0], params)
  {
    hide ModeChanges;
  }

  lemma ModeStays(s: State, c: Client, n: string, params: seq<string>, other: string)
    requires n in s.channels && |params| > 1 && other in s.channels
    ensures var t := ModeChanges(s, c, n, params).s;
      other in t.channels && (other != n ==> t.channels[other] == s.channels[other])
  {
    hide Interpret, Deliver;
  }

  lemma ModeRefused(s: State, c: Client, params: seq<string>)
    requires !(|params| > 1 && params[0] in s.channels && c in s.channels[params[0]].operators)
    ensures ModeCmd(s, c, params).s == s && NotMode(ModeCmd(s, c, params).r)
  {
    hide ModeChanges;
  }

  lemma DispatchFollowed(s: State, fd: int, m: Message, n: string, d: Client)
    requires Good(s) && FromLine(m) && fd in s.byFd
    requires n in s.channels && d in s.channels[n].members && n in Dispatch(s, fd, m).s.channels
    ensures FollowedIff(Alters(s, s.byFd[fd], m, n) ==> Conveyed(s, s.byFd[fd], n, m.params),
                        s, Dispatch(s, fd, m), n, d)
  {
    hide Inv, TextsOk, Execute, Conveyed, Follow, LinesTo, NearlyRight, FollowedIff;
    var c, cmd := s.byFd[fd], CommandOf(m.command);
    SenderLives(s, fd);
    if !OpenToAll(cmd) && !s.Rec(c).registered {
      NoOperator(s, c, n);
      RefuseNotMode(s, c, 451, m.command);
      FollowQuiet(s.channels[n].modes, Tell(s, c, 451, m.command), d.socketFd, n);
      FollowedSurely(s, Dispatch(s, fd, m), n, d);
    } else if cmd.CmdMode? {
      ExecuteMode(s, c, m);
      ModeCmdFollowed(s, c, m, n, d);
    } else {
      OtherCommandFollowed(s, c, cmd, m, n, d);
      FollowedSurely(s, Dispatch(s, fd, m), n, d);
    }
  }

  lemma NoOperator(s: State, c: Client, n: string)
    requires Good(s) && !s.Rec(c).registered && n in s.channels
    ensures c !in s.channels[n].operators
  {
    assert ChannelOk(s, n, s.channels[n]);
  }

  /** One step, exactly: a member ends with the right copy of the modes exactly when the step is followable.
      Otherwise its copy stays as it was, or is wrong in the key alone or in the limit alone. */
  lemma StepFollowedIff(s: State, st: Step, n: string, d: Client)
    requires Good(s) && Legal(s, st) && n in s.channels && n in Next(s, st).s.channels
    requires d in s.channels[n].members
    ensures Followed(s, Next(s, st), n, d) <==> Followable(s, st, n)
    ensures var m, o := s.channels[n].modes, Next(s, st);
      CopyAfter(m, o, n, d) == m || NearlyRight(CopyAfter(m, o, n, d), o.s.channels[n].modes)
  {
    hide Good, Dispatch, Conveyed, Follow, LinesTo, NearlyRight;
    if st.Line? && st.fd in s.byFd && Parsed(st.line).command != "" {
      ParsedFromLine(st.line);
      DispatchFollowed(s, st.fd, Parsed(st.line), n, d);
    } else {
      assert !(st.Line? && st.fd in s.byFd && Alters(s, s.byFd[st.fd], Parsed(st.line), n)) by { NoCommand(); }
      QuietStep(s, st, n, d);
      FollowedSurely(s, Next(s, st), n, d);
    }
  }

  lemma NoCommand()
    ensures !CommandOf("").CmdMode?
  {
  }

  lemma QuietStep(s: State, st: Step, n: string, d: Client)
    requires n in s.channels && n in Next(s, st).s.channels
    requires !(st.Line? && st.fd in s.byFd && Parsed(st.line).command != "")
    ensures Followed(s, Next(s, st), n, d)
  {
  }

  /** Somebody reads every step of the run, and whoever it is, it is in the channel then. */
  ghost predicate Watched(s: State, steps: seq<Step>, n: string, readers: seq<Client>)
    requires |readers| == |steps|
    decreases |steps|
  {
    && n in s.channels
    && (steps == [] ||
        (readers[0] in s.channels[n].members && Watched(Next(s, steps[0]).s, steps[1..], n, readers[1..])))
  }

  /** A channel that stays is never without somebody to read. */
  lemma {:induction false} ReadersThere(s: State, steps: seq<Step>, n: string) returns (readers: seq<Client>)
    requires Good(s) && LegalRun(s, steps) && Lives(s, steps, n)
    ensures |readers| == |steps| && Watched(s, steps, n, readers)
    decreases |steps|
  {
    hide Next, Good, Legal;
    if steps == [] {
      readers := [];
    } else {
      StepGood(s, steps[0]);
      SomeMember(s, n);
      var d :| d in s.channels[n].members;
      var rest := ReadersThere(Next(s, steps[0]).s, steps[1..], n);
      readers := [d] + rest;
      assert readers[1..] == rest;
    }
  }

  lemma SomeMember(s: State, n: string)
    requires Good(s) && n in s.channels
    ensures s.channels[n].members != {}
  {
    assert ChannelOk(s, n, s.channels[n]);
  }

  /** What the readers are sent, each at its own step. */
  ghost function Spread(s: State, steps: seq<Step>, readers: seq<Client>): seq<string>
    requires |readers| == |steps|
    decreases |steps|
  {
    if steps == [] then []
    else LinesTo(Next(s, steps[0]).r, readers[0].socketFd) + Spread(Next(s, steps[0]).s, steps[1..], readers[1..])
  }

  /** The copy is right now, and stays right over every step for its reader. */
  ghost predicate AlwaysRight(copy: ModesRec, s: State, steps: seq<Step>, n: string, readers: seq<Client>)
    requires |readers| == |steps|
    decreases |steps|
  {
    && n in s.channels && copy == s.channels[n].modes
    && (steps == [] ||
        AlwaysRight(CopyAfter(copy, Next(s, steps[0]), n, readers[0]),
                    Next(s, steps[0]).s, steps[1..], n, readers[1..]))
  }

  /** Over a run, exactly: a copy of the modes that is right at the start and follows what is broadcast in the channel
      is right at every point of the run exactly when every step is followable, however the members come and go. */
  lemma {:induction false} RightThroughout(s: State, steps: seq<Step>, n: string, readers: seq<Client>)
    requires Good(s) && LegalRun(s, steps) && |readers| == |steps| && Watched(s, steps, n, readers)
    ensures AlwaysRight(s.channels[n].modes, s, steps, n, readers) <==> AllFollowable(s, steps, n)
    decreases |steps|
  {
    hide Next, Good, Legal, Followable, CopyAfter;
    if steps == [] {
    } else {
      var o, rest := Next(s, steps[0]), steps[1..];
      StepGood(s, steps[0]);
      WatchedChannel(o.s, rest, n, readers[1..]);
      StepFollowedIff(s, steps[0], n, readers[0]);
      RightThroughout(o.s, rest, n, readers[1..]);
    }
  }

  lemma WatchedChannel(s: State, steps: seq<Step>, n: string, readers: seq<Client>)
    requires |readers| == |steps| && Watched(s, steps, n, readers)
    ensures n in s.channels
  {
  }

  /** Everything that is broadcast in a channel over a run of followable steps, folded over its modes, gives its modes
      now. */
  lemma {:induction false} BroadcastsFollowed(s: State, steps: seq<Step>, n: string, readers: seq<Client>)
    requires Good(s) && LegalRun(s, steps) && |readers| == |steps| && Watched(s, steps, n, readers)
    requires AllFollowable(s, steps, n)
    ensures n in After(s, steps).channels
    ensures Follow(s.channels[n].modes, Spread(s, steps, readers), n) == After(s, steps).channels[n].modes
    decreases |steps|
  {
    hide Next, Good, Legal, Followable, Follow;
    if steps == [] {
      FollowNothing(s.channels[n].modes, n);
    } else {
      var o, rest := Next(s, steps[0]), steps[1..];
      StepGood(s, steps[0]);
      WatchedChannel(o.s, rest, n, readers[1..]);
      StepFollowedIff(s, steps[0], n, readers[0]);
      BroadcastsFollowed(o.s, rest, n, readers[1..]);
      FollowConcat(s.channels[n].modes, LinesTo(o.r, readers[0].socketFd), Spread(o.s, rest, readers[1..]), n);
    }
  }

  lemma FollowNothing(m: ModesRec, n: string)
    ensures Follow(m, [], n) == m
  {
  }

  /** The same reader at every step. */
  function Repeated(d: Client, k: nat): (r: seq<Client>)
    ensures |r| == k && forall i | 0 <= i < k :: r[i] == d
  {
    seq(k, _ => d)
  }

  /** One reader's lines are those of the connection. */
  lemma {:induction false} HeardByOne(s: State, steps: seq<Step>, d: Client)
    ensures Spread(s, steps, Repeated(d, |steps|)) == Heard(s, steps, d.socketFd)
    decreases |steps|
  {
    hide Next;
    if steps == [] {
    } else {
      HeardByOne(Next(s, steps[0]).s, steps[1..], d);
      assert Repeated(d, |steps|)[1..] == Repeated(d, |steps[1..]|);
    }
  }

  /** A member can keep track of the modes from its own input alone: replaying every MODE line it is sent, on the
      modes as they were when it started, gives the modes at the end of the run, when every step is followable. */
  lemma ModesFollowed(s: State, steps: seq<Step>, n: string, d: Client)
    requires Good(s) && LegalRun(s, steps) && Watched(s, steps, n, Repeated(d, |steps|)) && AllFollowable(s, steps, n)
    ensures n in After(s, steps).channels
    ensures Follow(s.channels[n].modes, Heard(s, steps, d.socketFd), n) == After(s, steps).channels[n].modes
  {
    hide Follow, Good, LegalRun, AllFollowable, Watched;
    WatchedChannel(s, steps, n, Repeated(d, |steps|));
    BroadcastsFollowed(s, steps, n, Repeated(d, |steps|));
    HeardByOne(s, steps, d);
  }

  /** Every channel is brought into being like that. */
  lemma BornPlain(s: State, st: Step, n: string)
    requires Good(s) && Legal(s, st) && n !in s.channels && n in Next(s, st).s.channels
    ensures Creates(s, st, n)
  {
    hide Execute;
    if st.Line? && st.fd in s.byFd {
      DispatchAuthority(s, st.fd, Parsed(st.line));
    }
  }

  /** Since a channel was created: a copy that starts with no modes at all and follows its MODE broadcasts is right
      at every point exactly when every step is followable; the fold of the broadcasts is then what is set. */
  lemma ModesSinceCreation(s: State, st: Step, steps: seq<Step>, n: string, readers: seq<Client>)
    requires Good(s) && Legal(s, st) && n !in s.channels && |readers| == |steps|
    requires LegalRun(Next(s, st).s, steps) && Watched(Next(s, st).s, steps, n, readers)
    ensures var t := Next(s, st).s;
      && (AlwaysRight(NO_MODES, t, steps, n, readers) <==> AllFollowable(t, steps, n))
      && (AllFollowable(t, steps, n) ==>
            n in After(t, steps).channels
            && Follow(NO_MODES, Spread(t, steps, readers), n) == After(t, steps).channels[n].modes)
  {
    hide Next, Good, Legal;
    StepGood(s, st);
    WatchedChannel(Next(s, st).s, steps, n, readers);
    BornPlain(s, st, n);
    RightThroughout(Next(s, st).s, steps, n, readers);
    if AllFollowable(Next(s, st).s, steps, n) {
      BroadcastsFollowed(Next(s, st).s, steps, n, readers);
    }
  }
}
