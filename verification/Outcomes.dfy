// When a command takes effect, for every message: the exact conditions, which numeric refuses otherwise, and what a
// refusal leaves alone.
module Outcomes {
  import opened Text
  import opened Parser
  import opened Clients
  import opened Channels
  import opened Replies
  import opened Model
  import opened Commands
  import opened Safety
  import opened Laws

  /** One answer to the sender, the numeric `num` about `msg`, and nothing changed. */
  ghost predicate Answered(s: State, c: Client, o: Out, num: nat, msg: string) {
    o == Out(s, [Reply(c.socketFd, Numeric(TargetName(s.Rec(c).nickname), num, msg))])
  }

  /** The message is this command, from a client that may use it. */
  ghost predicate Calls(s: State, fd: int, m: Message, name: string) {
    && fd in s.byFd && m.command == name
    && (name in {"PASS", "NICK", "USER", "CAP"} || s.Rec(s.byFd[fd]).registered)
  }

  lemma CallExecutes(s: State, fd: int, m: Message, name: string)
    requires Calls(s, fd, m, name)
    ensures Dispatch(s, fd, m) == Execute(s, s.byFd[fd], CommandOf(name), m)
  {
    hide Execute;
    CommandNames(name);
  }

  // ----- PASS, NICK, USER ---------------------------------------------------------------------------

  /** A client is registered after a login command exactly when it was before or has handed in password, nick and
      user name by now; it is welcomed when it is registered now and was not before. */
  ghost predicate RegistersRight(s: State, c: Client, o: Out) {
    var was, now := s.Rec(c), o.s.Rec(c);
    && (now.registered <==> was.registered || (now.passAccepted && now.nickname != "" && now.username != ""))
    && o.r == if now.registered && !was.registered then Welcome(o.s, c) else []
  }

  lemma RegisterRight(s: State, t: State, c: Client)
    requires s.Rec(c).registered == t.Rec(c).registered && c in t.clients
    ensures var o := Register(t, c);
      && o.s == t.WithRec(c, o.s.Rec(c))
      && o.s.Rec(c) == t.Rec(c).(registered := o.s.Rec(c).registered)
      && RegistersRight(s, c, o)
  {
  }

  /** PASS counts when it is right; it is refused, and changes nothing, when it is short, late or wrong. */
  lemma PassOutcome(s: State, fd: int, m: Message)
    requires Inv(s) && Calls(s, fd, m, "PASS")
    ensures var o, c := Dispatch(s, fd, m), s.byFd[fd];
      var given, late := |m.params| >= 1, s.Rec(c).registered;
      var right := given && m.params[0] == s.password;
      && (!given ==> Answered(s, c, o, 461, "PASS"))
      && (given && late ==> Answered(s, c, o, 462, ""))
      && (given && !late && !right ==> Answered(s, c, o, 464, ""))
      && (right && !late ==>
            && RegistersRight(s, c, o)
            && o.s == s.WithRec(c, s.Rec(c).(passAccepted := true, registered := o.s.Rec(c).registered)))
  {
    hide Dispatch, Execute, Register, RegistersRight;
    var c := s.byFd[fd];
    SenderLives(s, fd);
    CallExecutes(s, fd, m, "PASS");
    CommandNames("PASS");
    ExecutePass(s, c, m);
    RegisterRight(s, s.WithRec(c, s.Rec(c).(passAccepted := true)), c);
  }

  lemma ExecutePass(s: State, c: Client, m: Message)
    ensures Execute(s, c, CmdPass, m) == Pass(s, c, m.params)
  {
    hide Pass;
  }

  /** The nick is the client's, the old one is free, and no other changes hands. */
  ghost predicate Claims(s: State, c: Client, nick: string, t: State) {
    var was := s.Rec(c).nickname;
    && t.byFd == s.byFd && t.channels == s.channels && t.password == s.password
    && t.clients == s.clients[c := s.Rec(c).(nickname := nick, registered := t.Rec(c).registered)]
    && nick in t.byNick && t.byNick[nick] == c && (was != nick ==> was !in t.byNick)
    && (forall x | x != nick && x != was :: x in t.byNick <==> x in s.byNick)
    && (forall x | x != nick && x != was && x in s.byNick :: t.byNick[x] == s.byNick[x])
  }

  lemma NickClaimed(s: State, c: Client, nick: string)
    requires Inv(s) && c in s.clients && ValidNick(nick) && (nick in s.byNick ==> s.byNick[nick] == c)
    ensures var t := UpdateNickname(s, c, nick);
      t.1 && c in t.0.clients && Claims(s, c, nick, t.0) && t.0.Rec(c).registered == s.Rec(c).registered
  {
    NickFacts(s, c);
    hide Inv, ValidNick, Freed;
    var was := s.Rec(c).nickname;
    if was == nick {
      assert s.clients == s.clients[c := s.Rec(c)];
    } else {
      FreedNicks(s.byNick, nick, c, was);
    }
  }

  lemma FreedNicks(byNick: map<string, Client>, nick: string, c: Client, was: string)
    requires was != nick && "" !in byNick && nick != ""
    ensures var t := Freed(byNick[nick := c], was);
      && nick in t && t[nick] == c && was !in t
      && (forall x | x != nick && x != was :: x in t <==> x in byNick)
      && (forall x | x != nick && x != was && x in byNick :: t[x] == byNick[x])
  {
  }

  lemma ClaimRegisters(s: State, c: Client, nick: string, t: State)
    requires Claims(s, c, nick, t) && c in t.clients && t.Rec(c).registered == s.Rec(c).registered
    ensures Claims(s, c, nick, Register(t, c).s) && RegistersRight(s, c, Register(t, c))
  {
    RegisterRight(s, t, c);
    hide Register, RegistersRight;
    assert Register(t, c).s.byNick == t.byNick;
  }

  /** A nick is the sender's after NICK when it is valid and nobody else had it, letter case included; then the old
      nick is free and no other changes hands. Otherwise NICK is refused and changes nothing. */
  lemma NickOutcome(s: State, fd: int, m: Message)
    requires Inv(s) && Calls(s, fd, m, "NICK")
    ensures var o, c := Dispatch(s, fd, m), s.byFd[fd];
      var given, nick := |m.params| >= 1, if |m.params| >= 1 then m.params[0] else "";
      var taken := nick in s.byNick && s.byNick[nick] != c;
      && (!given ==> Answered(s, c, o, 431, ""))
      && (given && !ValidNick(nick) ==> Answered(s, c, o, 432, nick))
      && (given && ValidNick(nick) && taken ==> Answered(s, c, o, 433, nick))
      && (given && ValidNick(nick) && !taken ==> Claims(s, c, nick, o.s) && RegistersRight(s, c, o))
  {
    hide Dispatch, Execute, Register, RegistersRight, ValidNick, Inv, Claims, UpdateNickname;
    var c := s.byFd[fd];
    CallExecutes(s, fd, m, "NICK");
    CommandNames("NICK");
    ExecuteNick(s, c, m);
    SenderLives(s, fd);
    if |m.params| >= 1 && ValidNick(m.params[0]) && (m.params[0] in s.byNick ==> s.byNick[m.params[0]] == c) {
      NickClaimed(s, c, m.params[0]);
      ClaimRegisters(s, c, m.params[0], UpdateNickname(s, c, m.params[0]).0);
    }
  }

  lemma NickFacts(s: State, c: Client)
    requires Inv(s)
    ensures forall nick | nick in s.byNick :: ValidNick(nick) && s.byNick[nick] in s.clients
    ensures !ValidNick("")
    ensures forall nick | nick in s.byNick && s.byNick[nick] == c :: nick == s.Rec(c).nickname
    ensures s.Rec(c).nickname != "" ==> s.Rec(c).nickname in s.byNick && s.byNick[s.Rec(c).nickname] == c
  {
  }

  lemma ExecuteNick(s: State, c: Client, m: Message)
    ensures Execute(s, c, CmdNick, m) == Nick(s, c, m.params)
  {
    hide Nick;
  }

  /** USER takes the first and the fourth parameter, as often as it is sent before registration; it is
      refused, and changes nothing, when it is short or late. */
  lemma UserOutcome(s: State, fd: int, m: Message)
    requires Inv(s) && Calls(s, fd, m, "USER")
    ensures var o, c := Dispatch(s, fd, m), s.byFd[fd];
      var given, late := |m.params| >= 4, s.Rec(c).registered;
      && (!given ==> Answered(s, c, o, 461, "USER"))
      && (given && late ==> Answered(s, c, o, 462, ""))
      && (given && !late ==>
            && RegistersRight(s, c, o)
            && o.s == s.WithRec(c, s.Rec(c).(
                 username := m.params[0], realname := m.params[3], registered := o.s.Rec(c).registered)))
  {
    hide Dispatch, Execute, Register, RegistersRight;
    var c := s.byFd[fd];
    SenderLives(s, fd);
    CallExecutes(s, fd, m, "USER");
    CommandNames("USER");
    ExecuteUser(s, c, m);
    if |m.params| >= 4 {
      RegisterRight(s, s.WithRec(c, s.Rec(c).(username := m.params[0], realname := m.params[3])), c);
    }
  }

  lemma ExecuteUser(s: State, c: Client, m: Message)
    ensures Execute(s, c, CmdUser, m) == User(s, c, m.params)
  {
    hide User;
  }

  // ----- JOIN ---------------------------------------------------------------------------------------

  /** The key that goes with the position `i`. */
  function KeyAt(keys: seq<string>, i: nat): string {
    if i < |keys| then keys[i] else ""
  }

  /** Somewhere in the list is the name, with a key that admits. */
  predicate ListAdmits(ch: ChanRec, c: Client, name: string, names: seq<string>, keys: seq<string>) {
    exists i | 0 <= i < |names| :: names[i] == name && Admits(ch, c, KeyAt(keys, i))
  }

  lemma ListAdmitsStep(ch: ChanRec, c: Client, name: string, names: seq<string>, keys: seq<string>)
    requires names != []
    ensures ListAdmits(ch, c, name, names, keys) <==>
      (names[0] == name && Admits(ch, c, KeyAt(keys, 0)))
      || ListAdmits(ch, c, name, names[1..], if keys == [] then [] else keys[1..])
  {
    hide Admits;
    var later := if keys == [] then [] else keys[1..];
    assert forall i | 0 <= i < |names| - 1 :: names[1..][i] == names[i + 1] && KeyAt(later, i) == KeyAt(keys, i + 1);
    if i :| 0 <= i < |names| && names[i] == name && Admits(ch, c, KeyAt(keys, i)) {
      if i > 0 {
        assert names[1..][i - 1] == name && Admits(ch, c, KeyAt(later, i - 1));
      }
    }
    if i :| 0 <= i < |names[1..]| && names[1..][i] == name && Admits(ch, c, KeyAt(later, i)) {
      assert names[i + 1] == name && Admits(ch, c, KeyAt(keys, i + 1));
    }
  }

  lemma JoinOneAdmits(s: State, c: Client, name: string, key: string, one: string)
    requires name in s.channels && ValidChannelName(name)
    ensures var t, ch := JoinOne(s, c, one, key).s, s.channels[name];
      name in t.channels
      && t.channels[name]
         == if one == name && c !in ch.members && Admits(ch, c, key) then ch.(members := ch.members + {c}) else ch
  {
    hide ValidChannelName, JoinReplies;
  }

  /** What a list makes of a channel that is there: its sender is in it if it was before, or the list
      admits it somewhere; nothing else about the channel changes. */
  lemma {:induction false} JoinManyAdmits(s: State, c: Client, name: string, names: seq<string>, keys: seq<string>)
    requires name in s.channels && ValidChannelName(name)
    ensures var t, ch := JoinMany(s, c, names, keys).s, s.channels[name];
      name in t.channels
      && t.channels[name]
         == if c !in ch.members && ListAdmits(ch, c, name, names, keys) then ch.(members := ch.members + {c}) else ch
    decreases |names|
  {
    hide JoinOne, Admits, ValidChannelName;
    var ch := s.channels[name];
    if names == [] {
    } else {
      var later := if keys == [] then [] else keys[1..];
      assert KeyAt(keys, 0) == if keys == [] then "" else keys[0];
      var u := JoinOne(s, c, names[0], KeyAt(keys, 0)).s;
      JoinOneAdmits(s, c, name, KeyAt(keys, 0), names[0]);
      JoinManyAdmits(u, c, name, names[1..], later);
      ListAdmitsStep(ch, c, name, names, keys);
    }
  }

  /** JOIN with any lists lets its sender into a channel that is there exactly when the channel is listed
      with a key that admits; an invitation is not used up, and nothing else about the channel changes. */
  lemma JoinAdmission(s: State, fd: int, m: Message, name: string)
    requires Inv(s) && Calls(s, fd, m, "JOIN") && |m.params| >= 1 && name in s.channels
    ensures var o, c, ch := Dispatch(s, fd, m), s.byFd[fd], s.channels[name];
      var names, keys := Split(m.params[0], ','), if |m.params| > 1 then Split(m.params[1], ',') else [];
      && name in o.s.channels && o.s.channels[name] == ch.(members := o.s.channels[name].members)
      && o.s.channels[name].members
         == if c in ch.members || ListAdmits(ch, c, name, names, keys) then ch.members + {c} else ch.members
  {
    hide Dispatch, Execute, ListAdmits, JoinMany;
    var c, ch := s.byFd[fd], s.channels[name];
    CallExecutes(s, fd, m, "JOIN");
    ExecuteJoin(s, c, m);
    assert ChannelOk(s, name, ch);
    JoinManyAdmits(s, c, name, Split(m.params[0], ','), if |m.params| > 1 then Split(m.params[1], ',') else []);
    if c in ch.members {
      assert ch.members + {c} == ch.members;
    }
  }

  lemma ExecuteJoin(s: State, c: Client, m: Message)
    ensures Execute(s, c, CmdJoin, m) == Commands.Join(s, c, m.params)
  {
    hide Commands.Join;
  }

  /** The one answer to a JOIN of a channel that shuts its sender out names the first rule that does: +i without an
      invitation, +k with another key, +l with as many members as the limit. */
  lemma JoinRefused(s: State, fd: int, m: Message)
    requires Inv(s) && Calls(s, fd, m, "JOIN") && |m.params| >= 1 && m.params[0] in s.channels
    requires s.byFd[fd] !in s.channels[m.params[0]].members
    ensures var o, c, n := Dispatch(s, fd, m), s.byFd[fd], m.params[0];
      var ch, key := s.channels[n], if |m.params| > 1 then Split(m.params[1], ',')[0] else "";
      var i := ch.modes.inviteOnly && c !in ch.invited;
      var k := ch.modes.channelProtected && key != ch.modes.channelPass;
      var l := ch.modes.memberLimited && |ch.members| >= ch.modes.maxMember;
      && (Answered(s, c, o, 473, n) <==> i)
      && (Answered(s, c, o, 475, n) <==> !i && k)
      && (Answered(s, c, o, 471, n) <==> !i && !k && l)
      && (!i && !k && !l <==> n in o.s.channels && c in o.s.channels[n].members)
  {
    hide Dispatch, Execute, JoinReplies;
    var c, n := s.byFd[fd], m.params[0];
    var keys := if |m.params| > 1 then Split(m.params[1], ',') else [];
    var key := if keys == [] then "" else keys[0];
    CallExecutes(s, fd, m, "JOIN");
    CommandNames("JOIN");
    ExecuteJoin(s, c, m);
    NameOfChannel(s, n);
    hide Inv, ValidChannelName;
    SplitNone(n, ',');
    var one := JoinOne(s, c, n, key);
    assert [n][1..] == [];
    assert JoinMany(one.s, c, [], if keys == [] then [] else keys[1..]) == Out(one.s, []);
    assert one.r + [] == one.r;
    assert JoinMany(s, c, [n], keys) == Out(one.s, one.r + []);
  }

  /** A JOIN of a valid name that no channel has creates the channel: no topic, no modes, and its sender as the one
      member and operator. */
  lemma JoinCreates(s: State, fd: int, m: Message)
    requires Calls(s, fd, m, "JOIN") && |m.params| >= 1 && m.params[0] !in s.channels && ValidChannelName(m.params[0])
    ensures var c, n := s.byFd[fd], m.params[0];
      Dispatch(s, fd, m).s
      == s.WithChannel(n, ChanRec(n, "", ModesRec(false, false, false, false, 0, ""), {c}, {c}, {}))
  {
    hide Dispatch, Execute, JoinReplies;
    var c, n := s.byFd[fd], m.params[0];
    var keys := if |m.params| > 1 then Split(m.params[1], ',') else [];
    CallExecutes(s, fd, m, "JOIN");
    CommandNames("JOIN");
    ExecuteJoin(s, c, m);
    assert Free(n, ',');
    SplitNone(n, ',');
    hide ValidChannelName;
    var one := JoinOne(s, c, n, if keys == [] then "" else keys[0]);
    assert [n][1..] == [];
    assert JoinMany(one.s, c, [], if keys == [] then [] else keys[1..]) == Out(one.s, []);
    assert JoinMany(s, c, [n], keys).s == one.s;
  }

  lemma NameOfChannel(s: State, n: string)
    requires Inv(s) && n in s.channels
    ensures ValidChannelName(n) && Free(n, ',')
  {
    assert ChannelOk(s, n, s.channels[n]);
  }

  // ----- KICK, PRIVMSG, PING, CAP -------------------------------------------------------------------

  /** JOIN and KICK without their parameters, and KICK from a channel that is not there. */
  lemma ListRefused(s: State, fd: int, m: Message)
    requires Calls(s, fd, m, "JOIN") || Calls(s, fd, m, "KICK")
    ensures var o, c, k := Dispatch(s, fd, m), s.byFd[fd], |m.params|;
      && (m.command == "JOIN" && k < 1 ==> Answered(s, c, o, 461, "JOIN"))
      && (m.command == "KICK" && k < 2 ==> Answered(s, c, o, 461, "KICK"))
      && (m.command == "KICK" && k >= 2 && m.params[0] !in s.channels ==> Answered(s, c, o, 403, m.params[0]))
  {
    CommandNames(m.command);
    hide JoinMany, KickMany;
  }

  /** PRIVMSG needs a recipient and a text. */
  lemma PrivMsgRefused(s: State, fd: int, m: Message)
    requires Calls(s, fd, m, "PRIVMSG")
    ensures var o, c, k := Dispatch(s, fd, m), s.byFd[fd], |m.params|;
      && (k < 1 ==> Answered(s, c, o, 411, "PRIVMSG"))
      && (k == 1 || (k > 1 && m.params[1] == "") ==> Answered(s, c, o, 412, ""))
  {
    CommandNames(m.command);
    hide SendMany;
  }

  /** PING is answered with its token, CAP LS with nothing on offer, CAP REQ with a refusal of all that was asked
      for, any other CAP with silence, and a command that is none with 421; nothing changes. */
  lemma ServiceOutcome(s: State, fd: int, m: Message)
    requires fd in s.byFd && (m.command == "PING" ==> s.Rec(s.byFd[fd]).registered)
    requires m.command !in {"PASS", "NICK", "USER", "JOIN", "PRIVMSG", "KICK", "INVITE", "TOPIC", "MODE"}
    ensures var o, c, k := Dispatch(s, fd, m), s.byFd[fd], |m.params|;
      var own := TargetName(s.Rec(c).nickname);
      && o.s == s
      && (m.command == "PING" ==> o.r == [Reply(c.socketFd, Pong(if k == 0 then "ircServ" else m.params[0]))])
      && (m.command == "CAP" ==>
            o.r == if k >= 1 && m.params[0] == "LS" then [Reply(c.socketFd, Cap(own, " LS :"))]
                   else if k == 1 && m.params[0] == "REQ" then [Reply(c.socketFd, Cap(own, " NAK :"))]
                   else if k > 1 && m.params[0] == "REQ" then [Reply(c.socketFd, Cap(own, " NAK :" + m.params[1]))]
                   else [])
      && (m.command !in {"PING", "CAP"} ==> Answered(s, c, o, 421, m.command))
  {
    CommandNames(m.command);
    assert " NAK :" + "" == " NAK :";
  }

  // ----- INVITE, TOPIC, MODE ------------------------------------------------------------------------

  /** INVITE, whatever its parameters, invites exactly the client it names, exactly when an operator of the
      channel sends it and the client is not a member. */
  lemma InviteOutcome(s: State, fd: int, m: Message, n: string, d: Client)
    requires Inv(s) && Calls(s, fd, m, "INVITE") && n in s.channels
    ensures var o, c := Dispatch(s, fd, m), s.byFd[fd];
      && n in o.s.channels
      && (d in o.s.channels[n].invited <==>
            d in s.channels[n].invited || (InvitedBy(s, c, m, n, d) && d !in s.channels[n].members))
      && (d !in s.channels[n].invited && d in o.s.channels[n].invited && d != c ==>
            ForFd(o.r, d.socketFd) == [Invited(Prefix(s, c), m.params[0], n)])
  {
    hide Dispatch, Execute, Invite, Inv;
    var c := s.byFd[fd];
    CallExecutes(s, fd, m, "INVITE");
    CommandNames("INVITE");
    ExecuteInvite(s, c, m);
    InviteEffect(s, c, m, n, d);
    if d !in s.channels[n].invited && d in Dispatch(s, fd, m).s.channels[n].invited && d != c {
      SenderLives(s, fd);
      InviteHeard(s, c, m, n, d);
    }
  }

  lemma InviteEffect(s: State, c: Client, m: Message, n: string, d: Client)
    requires Inv(s) && n in s.channels && CommandOf(m.command).CmdInvite?
    ensures var t := Invite(s, c, m.params).s;
      && n in t.channels
      && (d in t.channels[n].invited <==>
            d in s.channels[n].invited || (InvitedBy(s, c, m, n, d) && d !in s.channels[n].members))
  {
    hide Inv;
    OperatorsAreMembers(s, n);
  }

  /** A newly invited client is told once. */
  lemma InviteHeard(s: State, c: Client, m: Message, n: string, d: Client)
    requires Inv(s) && c in s.clients && n in s.channels && InvitedBy(s, c, m, n, d) && d != c
    requires d !in s.channels[n].members && d !in s.channels[n].invited
    ensures ForFd(Invite(s, c, m.params).r, d.socketFd) == [Invited(Prefix(s, c), m.params[0], n)]
  {
    var nick := m.params[0];
    assert c.socketFd != d.socketFd;
    hide Inv;
    NickOfHolder(s, nick);
    OperatorsAreMembers(s, n);
    var told, invited := Tell(s, c, 341, nick + " " + n), [Reply(d.socketFd, Invited(Prefix(s, c), nick, n))];
    ForFdConcat(told, invited, d.socketFd);
    assert told[1..] == [] && invited[1..] == [];
  }

  /** What INVITE answers: the first thing that is wrong with it, nothing for somebody who is invited already, or 341,
      and then the invitation goes to the one it names. */
  lemma InviteAnswer(s: State, fd: int, m: Message)
    requires Inv(s) && Calls(s, fd, m, "INVITE")
    ensures var o, c := Dispatch(s, fd, m), s.byFd[fd];
      && (|m.params| < 2 ==> Answered(s, c, o, 461, "INVITE"))
      && (|m.params| >= 2 ==>
            var nick, n := m.params[0], m.params[1];
            && (n !in s.channels ==> Answered(s, c, o, 403, n))
            && (n in s.channels ==>
                  var ch := s.channels[n];
                  && (c !in ch.members ==> Answered(s, c, o, 442, n))
                  && (c in ch.members && c !in ch.operators ==> Answered(s, c, o, 482, n))
                  && (c in ch.operators && nick !in s.byNick ==> Answered(s, c, o, 401, nick))
                  && (c in ch.operators && nick in s.byNick ==>
                        var d := s.byNick[nick];
                        && (d in ch.members ==> Answered(s, c, o, 443, nick + " " + n))
                        && (d !in ch.members && d in ch.invited ==> o == Out(s, []))
                        && (d !in ch.members && d !in ch.invited ==>
                              && o.s == s.WithChannel(n, ch.(invited := ch.invited + {d}))
                              && o.r == [Reply(c.socketFd, Numeric(TargetName(s.Rec(c).nickname), 341, nick + " " + n)),
                                         Reply(d.socketFd, Invited(Prefix(s, c), nick, n))]))))
  {
    hide Dispatch, Execute, Inv;
    var c := s.byFd[fd];
    CallExecutes(s, fd, m, "INVITE");
    CommandNames("INVITE");
    ExecuteInvite(s, c, m);
    if |m.params| >= 2 && m.params[1] in s.channels {
      OperatorsAreMembers(s, m.params[1]);
      if m.params[0] in s.byNick {
        NickOfHolder(s, m.params[0]);
      }
    }
  }

  lemma ExecuteInvite(s: State, c: Client, m: Message)
    ensures Execute(s, c, CmdInvite, m) == Invite(s, c, m.params)
  {
    hide Invite;
  }

  /** TOPIC with a text takes effect exactly when its sender is a member, and under +t an operator; then nothing but
      the topic changes, every member is told once, and nobody else is. A member is told the topic there is. Any
      other TOPIC is refused with what is wrong with it first. */
  lemma TopicOutcome(s: State, fd: int, m: Message, to: int)
    requires Inv(s) && Calls(s, fd, m, "TOPIC")
    ensures var o, c := Dispatch(s, fd, m), s.byFd[fd];
      && (|m.params| < 1 ==> Answered(s, c, o, 461, "TOPIC"))
      && (|m.params| >= 1 && m.params[0] !in s.channels ==> Answered(s, c, o, 403, m.params[0]))
      && (|m.params| >= 1 && m.params[0] in s.channels ==>
            var n, ch := m.params[0], s.channels[m.params[0]];
            var asks, may := |m.params| == 1, !ch.modes.topicRestricted || c in ch.operators;
            && (c !in ch.members ==> Answered(s, c, o, 442, n))
            && (c in ch.members && asks && ch.topic == "" ==> Answered(s, c, o, 331, n))
            && (c in ch.members && asks && ch.topic != "" ==> Answered(s, c, o, 332, n + " :" + ch.topic))
            && (c in ch.members && !asks && !may ==> Answered(s, c, o, 482, n))
            && (c in ch.members && !asks && may ==>
                  && o.s == s.WithChannel(n, ch.(topic := m.params[1]))
                  && ForFd(o.r, to) == OnceEach(ch.members, TopicSet(Prefix(s, c), n, m.params[1]), to)))
  {
    hide Dispatch, Execute, Deliver, OnceEach;
    var c := s.byFd[fd];
    CallExecutes(s, fd, m, "TOPIC");
    CommandNames("TOPIC");
    ExecuteTopic(s, c, m);
    if |m.params| >= 1 && m.params[0] in s.channels {
      var n, ch := m.params[0], s.channels[m.params[0]];
      assert ChannelOk(s, n, ch);
      if |m.params| >= 2 {
        DeliveredOnceEach(s, ch.members, TopicSet(Prefix(s, c), n, m.params[1]), to);
      }
    }
  }

  lemma ExecuteTopic(s: State, c: Client, m: Message)
    ensures Execute(s, c, CmdTopic, m) == Topic(s, c, m.params)
  {
    hide Topic;
  }

  /** MODE is refused with what is wrong with it first, unless its sender operates the channel. */
  lemma ModeRefusals(s: State, fd: int, m: Message)
    requires Inv(s) && Calls(s, fd, m, "MODE")
    ensures var o, c := Dispatch(s, fd, m), s.byFd[fd];
      && (|m.params| < 1 ==> Answered(s, c, o, 461, "MODE"))
      && (|m.params| >= 1 && m.params[0] !in s.channels ==> Answered(s, c, o, 403, m.params[0]))
      && (|m.params| > 1 && m.params[0] in s.channels ==>
            var n, ch := m.params[0], s.channels[m.params[0]];
            && (c !in ch.members ==> Answered(s, c, o, 442, n))
            && (c in ch.members && c !in ch.operators ==> Answered(s, c, o, 482, n)))
  {
    hide Dispatch, Execute, CurrentModes, ModeChanges, Inv;
    CallExecutes(s, fd, m, "MODE");
    CommandNames("MODE");
    ExecuteMode(s, s.byFd[fd], m);
  }

  /** With one parameter MODE shows anybody the modes that are set. */
  lemma ModeQueryTells(s: State, fd: int, m: Message) returns (shown: string)
    requires Calls(s, fd, m, "MODE") && |m.params| == 1 && m.params[0] in s.channels
    ensures Answered(s, s.byFd[fd], Dispatch(s, fd, m), 324, m.params[0] + " +" + shown)
    ensures forall x | x in shown :: x in {'i', 't', 'k', 'l'}
    ensures var modes := s.channels[m.params[0]].modes;
      && ('i' in shown <==> modes.inviteOnly) && ('t' in shown <==> modes.topicRestricted)
      && ('k' in shown <==> modes.channelProtected) && ('l' in shown <==> modes.memberLimited)
  {
    hide Dispatch, Execute, CurrentModes;
    var n := m.params[0];
    CallExecutes(s, fd, m, "MODE");
    CommandNames("MODE");
    ExecuteMode(s, s.byFd[fd], m);
    shown := ShownModes(s.channels[n].modes);
    QueryText(n, shown);
  }

  lemma QueryText(n: string, shown: string)
    ensures n + " " + ("+" + shown) == n + " +" + shown
  {
    assert " " + ("+" + shown) == " +" + shown;
    assert n + (" " + ("+" + shown)) == n + " " + ("+" + shown);
  }

  lemma ShownModes(m: ModesRec) returns (shown: string)
    ensures CurrentModes(m) == "+" + shown
    ensures forall x | x in shown :: x in {'i', 't', 'k', 'l'}
    ensures ('i' in shown <==> m.inviteOnly) && ('t' in shown <==> m.topicRestricted)
    ensures ('k' in shown <==> m.channelProtected) && ('l' in shown <==> m.memberLimited)
  {
    var i, t := if m.inviteOnly then "i" else "", if m.topicRestricted then "t" else "";
    var k, l := if m.channelProtected then "k" else "", if m.memberLimited then "l" else "";
    shown := i + t + k + l;
    assert CurrentModes(m) == "+" + i + t + k + l;
  }
}
