// What one message comes to, said without the loops that do it: lists of channels, mode
// announcements, and who hears a PRIVMSG.
module Laws {
  import opened Text
  import opened Parser
  import opened Clients
  import opened Channels
  import opened Replies
  import opened Model
  import opened Mode
  import opened Reading
  import opened Commands
  import opened Safety
  import opened Answers
  import opened Names
  import opened Delivery

  // ----- JOIN of a list ---------------------------------------------------------------------------

  /** One JOIN message for each name, in order, each with the key at its own position if there is one. */
  ghost function JoinSingly(s: State, c: Client, names: seq<string>, keys: seq<string>): Out
    decreases |names|
  {
    if names == [] then Out(s, [])
    else
      var one := Join(s, c, if keys == [] then [names[0]] else [names[0], keys[0]]);
      var rest := JoinSingly(one.s, c, names[1..], if keys == [] then [] else keys[1..]);
      Out(rest.s, one.r + rest.r)
  }

  /** A JOIN message for one name. */
  lemma JoinSingle(s: State, c: Client, name: string, keys: seq<string>)
    requires Free(name, ',') && AllFree(keys, ',')
    ensures Join(s, c, if keys == [] then [name] else [name, keys[0]])
         == JoinOne(s, c, name, if keys == [] then "" else keys[0])
  {
    hide JoinOne;
    SplitNone(name, ',');
    var key := if keys == [] then "" else keys[0];
    var ks: seq<string> := if keys == [] then [] else [key];
    if keys != [] {
      assert keys[0] in keys;
      SplitNone(keys[0], ',');
    }
    var one := JoinOne(s, c, name, key);
    assert [name][1..] == [];
    assert JoinMany(one.s, c, [], if ks == [] then [] else ks[1..]) == Out(one.s, []);
    assert one.r + [] == one.r;
    assert JoinMany(s, c, [name], ks) == Out(one.s, one.r + []);
  }

  lemma {:induction false} JoinManySingly(s: State, c: Client, names: seq<string>, keys: seq<string>)
    requires AllFree(names, ',') && AllFree(keys, ',')
    ensures JoinMany(s, c, names, keys) == JoinSingly(s, c, names, keys)
    decreases |names|
  {
    hide JoinOne, Join;
    if names == [] {
    } else {
      assert names[0] in names && forall n | n in names[1..] :: n in names;
      assert keys != [] ==> forall k | k in keys[1..] :: k in keys;
      var key := if keys == [] then "" else keys[0];
      JoinSingle(s, c, names[0], keys);
      JoinManySingly(JoinOne(s, c, names[0], key).s, c, names[1..], if keys == [] then [] else keys[1..]);
    }
  }

  /** A JOIN of a list, whatever is in it, is the JOINs of its pieces from left to right. */
  lemma JoinIsFold(s: State, c: Client, params: seq<string>)
    requires |params| >= 1
    ensures Join(s, c, params)
         == JoinSingly(s, c, Split(params[0], ','), if |params| > 1 then Split(params[1], ',') else [])
  {
    hide JoinMany, JoinSingly;
    GlueSplit(params[0], ',');
    if |params| > 1 {
      GlueSplit(params[1], ',');
    }
    JoinManySingly(s, c, Split(params[0], ','), if |params| > 1 then Split(params[1], ',') else []);
  }

  // ----- Who hears of it ------------------------------------------------------------------------------

  /** `body` once for every connection of a member, and nothing for anybody else. */
  ghost function OnceEach(members: set<Client>, body: Body, fd: int): seq<Body> {
    if exists d | d in members :: d.socketFd == fd then [body] else []
  }

  lemma DeliveredOnceEach(s: State, members: set<Client>, body: Body, fd: int)
    requires Inv(s) && members <= s.clients.Keys
    ensures ForFd(Deliver(members, null, body), fd) == OnceEach(members, body, fd)
  {
    DeliverExact(members, null, body, fd);
  }

  /** What a client reads of a channel it has just entered. */
  ghost function Greeting(s: State, c: Client, ch: ChanRec): seq<Body> {
    var name := TargetName(s.Rec(c).nickname);
    [ if ch.topic == "" then Numeric(name, 331, ch.name) else Numeric(name, 332, ch.name + " :" + ch.topic),
      Numeric(name, 353, ch.name + " :" + MemberLine(s, ch, ch.members, "")),
      Numeric(name, 366, ch.name) ]
  }

  lemma SenderHears(s: State, c: Client, ch: ChanRec, fd: int)
    ensures ForFd(NotifyTopic(s, c, ch) + NotifyMembers(s, c, ch), fd)
         == if fd == c.socketFd then Greeting(s, c, ch) else []
  {
    hide MemberLine;
    var r := NotifyTopic(s, c, ch) + NotifyMembers(s, c, ch);
    var g := Greeting(s, c, ch);
    assert r == [Reply(c.socketFd, g[0]), Reply(c.socketFd, g[1]), Reply(c.socketFd, g[2])];
    ThreeReplies(c.socketFd, g[0], g[1], g[2], fd);
  }

  lemma ThreeReplies(own: int, a: Body, b: Body, d: Body, fd: int)
    ensures ForFd([Reply(own, a), Reply(own, b), Reply(own, d)], fd) == if fd == own then [a, b, d] else []
  {
    var r := [Reply(own, a), Reply(own, b), Reply(own, d)];
    assert r[1..] == [Reply(own, b), Reply(own, d)];
    assert r[1..][1..] == [Reply(own, d)];
    assert r[1..][1..][1..] == [];
    if fd == own {
      assert ForFd(r[1..][1..], fd) == [d];
      assert ForFd(r[1..], fd) == [b] + [d];
      assert ForFd(r, fd) == [a] + ([b] + [d]);
    } else {
      assert ForFd(r[1..][1..], fd) == [];
      assert ForFd(r[1..], fd) == [];
    }
  }

  /** A JOIN that takes effect is announced once to every member, the new one included, who then reads
      the topic and the members of the channel as it is from then on. */
  lemma JoinOneHeard(s: State, c: Client, name: string, key: string, fd: int)
    requires Inv(s) && c in s.clients && s.clients[c].registered && JoinOne(s, c, name, key).s != s
    ensures var o := JoinOne(s, c, name, key);
      && name in o.s.channels && c in o.s.channels[name].members
      && ForFd(o.r, fd) == OnceEach(o.s.channels[name].members, Joined(Prefix(o.s, c), name), fd)
                           + if fd == c.socketFd then Greeting(o.s, c, o.s.channels[name]) else []
  {
    var o := JoinOne(s, c, name, key);
    JoinNames(s, c, name, key);
    var ch := o.s.channels[name];
    assert ChannelOk(o.s, name, ch);
    JoinRepliesHeard(o.s, c, name, fd);
  }

  lemma JoinRepliesHeard(s: State, c: Client, name: string, fd: int)
    requires Inv(s) && name in s.channels
    ensures ForFd(JoinReplies(s, c, s.channels[name]), fd)
         == OnceEach(s.channels[name].members, Joined(Prefix(s, c), name), fd)
            + if fd == c.socketFd then Greeting(s, c, s.channels[name]) else []
  {
    var ch := s.channels[name];
    assert ChannelOk(s, name, ch);
    hide Inv, MemberLine, NotifyTopic, NotifyMembers, Greeting;
    var told, rest := Deliver(ch.members, null, Joined(Prefix(s, c), name)),
        NotifyTopic(s, c, ch) + NotifyMembers(s, c, ch);
    assert JoinReplies(s, c, ch) == told + rest;
    DeliveredOnceEach(s, ch.members, Joined(Prefix(s, c), name), fd);
    SenderHears(s, c, ch, fd);
    ForFdConcat(told, rest, fd);
  }

  /** Who may enter an existing channel with this key. */
  predicate Admits(ch: ChanRec, c: Client, key: string) {
    && (ch.modes.inviteOnly ==> c in ch.invited)
    && (ch.modes.channelProtected ==> key == ch.modes.channelPass)
    && (ch.modes.memberLimited ==> |ch.members| < ch.modes.maxMember)
  }

  /** What `c` makes of a channel it enters, or creates. */
  function Entered(s: State, c: Client, name: string): ChanRec {
    if name in s.channels then s.channels[name].(members := s.channels[name].members + {c}) else Created(name, c)
  }

  /** A JOIN of this name gets its sender in, who has entered the channels `inside` on the way to it. */
  predicate GetsIn(s: State, c: Client, inside: set<string>, name: string, key: string) {
    && ValidChannelName(name) && name !in inside
    && (name in s.channels ==> c !in s.channels[name].members && Admits(s.channels[name], c, key))
  }

  /** What one connection gets of one name of a JOIN list: the announcement if it is a member's, and for the sender
      the topic and the members; or one refusal, for the sender, of the first rule that shuts it out; or nothing where
      the sender is a member. */
  ghost function JoinShare(s: State, c: Client, inside: set<string>, name: string, key: string, fd: int): seq<Body> {
    var nick := TargetName(s.Rec(c).nickname);
    if GetsIn(s, c, inside, name, key) then
      OnceEach(Entered(s, c, name).members, Joined(Prefix(s, c), name), fd)
      + if fd == c.socketFd then Greeting(s, c, Entered(s, c, name)) else []
    else if fd != c.socketFd then []
    else if !ValidChannelName(name) then [Numeric(nick, 403, name)]
    else if name in inside || c in s.channels[name].members then []
    else
      var ch := s.channels[name];
      if ch.modes.inviteOnly && c !in ch.invited then [Numeric(nick, 473, name)]
      else if ch.modes.channelProtected && key != ch.modes.channelPass then [Numeric(nick, 475, name)]
      else [Numeric(nick, 471, name)]
  }

  /** What one connection gets of a JOIN list: its share of every name, in order. */
  ghost function JoinShares(s: State, c: Client, inside: set<string>, names: seq<string>, keys: seq<string>,
                            fd: int): seq<Body>
    decreases |names|
  {
    if names == [] then []
    else
      var name, key := names[0], if keys == [] then "" else keys[0];
      JoinShare(s, c, inside, name, key, fd)
      + JoinShares(s, c, if GetsIn(s, c, inside, name, key) then inside + {name} else inside, names[1..],
                   if keys == [] then [] else keys[1..], fd)
  }

  /** `t`, on the way through the list, is `s` but for the channels `inside`, which `c` has entered. */
  ghost predicate JoinedSoFar(s: State, t: State, c: Client, inside: set<string>) {
    && Inv(t) && t.clients == s.clients
    && (forall n | n in inside :: n in t.channels && c in t.channels[n].members)
    && (forall n | n !in inside :: n in t.channels <==> n in s.channels)
    && (forall n | n !in inside && n in s.channels :: t.channels[n] == s.channels[n])
  }

  lemma JoinOneShare(s: State, t: State, c: Client, inside: set<string>, name: string, key: string, fd: int)
    requires c in s.clients && s.clients[c].registered && JoinedSoFar(s, t, c, inside)
    ensures ForFd(JoinOne(t, c, name, key).r, fd) == JoinShare(s, c, inside, name, key, fd)
  {
    hide Inv, JoinReplies, OnceEach, Greeting, ValidChannelName;
    if GetsIn(s, c, inside, name, key) {
      var o := JoinOne(t, c, name, key);
      assert o.s.channels[name] == Entered(s, c, name);
      assert o.s != t by { assert c in o.s.channels[name].members; }
      JoinOneHeard(t, c, name, key, fd);
      SameGreeting(s, o.s, c, Entered(s, c, name));
    }
  }

  lemma SameGreeting(s: State, t: State, c: Client, ch: ChanRec)
    requires s.clients == t.clients
    ensures Greeting(s, c, ch) == Greeting(t, c, ch) && Prefix(s, c) == Prefix(t, c)
  {
    SameMemberLine(s, t, ch, ch.members, "");
  }

  lemma JoinOneGoesOn(s: State, t: State, c: Client, inside: set<string>, name: string, key: string)
    requires c in s.clients && s.clients[c].registered && JoinedSoFar(s, t, c, inside)
    ensures JoinedSoFar(s, JoinOne(t, c, name, key).s, c,
                        if GetsIn(s, c, inside, name, key) then inside + {name} else inside)
  {
    hide Inv, JoinReplies, ValidChannelName;
    JoinOneKeeps(t, c, name, key);
  }

  lemma {:induction false} JoinManyShares(s: State, t: State, c: Client, inside: set<string>, names: seq<string>,
                                          keys: seq<string>, fd: int)
    requires c in s.clients && s.clients[c].registered && JoinedSoFar(s, t, c, inside)
    ensures ForFd(JoinMany(t, c, names, keys).r, fd) == JoinShares(s, c, inside, names, keys, fd)
    decreases |names|
  {
    hide JoinOne, JoinShare, GetsIn, JoinedSoFar;
    if names == [] {
    } else {
      var key, rest := if keys == [] then "" else keys[0], if keys == [] then [] else keys[1..];
      var one := JoinOne(t, c, names[0], key);
      var inside' := if GetsIn(s, c, inside, names[0], key) then inside + {names[0]} else inside;
      JoinOneShare(s, t, c, inside, names[0], key, fd);
      JoinOneGoesOn(s, t, c, inside, names[0], key);
      JoinManyShares(s, one.s, c, inside', names[1..], rest, fd);
      ForFdConcat(one.r, JoinMany(one.s, c, names[1..], rest).r, fd);
    }
  }

  /** Who hears what of a JOIN, whatever its list: for each name one announcement to everybody who is then in the
      channel, with the greeting for the sender, or one refusal, or nothing. */
  lemma JoinHeard(s: State, fd: int, m: Message, to: int)
    requires Inv(s) && fd in s.byFd && s.Rec(s.byFd[fd]).registered && CommandOf(m.command).CmdJoin? && |m.params| >= 1
    ensures ForFd(Dispatch(s, fd, m).r, to)
         == JoinShares(s, s.byFd[fd], {}, Split(m.params[0], ','),
                       if |m.params| > 1 then Split(m.params[1], ',') else [], to)
  {
    hide JoinMany, JoinShares;
    JoinManyShares(s, s, s.byFd[fd], {}, Split(m.params[0], ','),
                   if |m.params| > 1 then Split(m.params[1], ',') else [], to);
  }

  // ----- KICK of a list -----------------------------------------------------------------------------

  /** What one connection gets of one nick of a KICK list, when `members` are in the channel (nobody once it
      is gone) and `power` says whether the kicker, if it is among them, is an operator. */
  ghost function KickShare(s: State, c: Client, n: string, members: set<Client>, power: bool, nick: string,
                           reason: string,
                           fd: int): seq<Body>
  {
    var name := TargetName(s.Rec(c).nickname);
    if nick != "" && nick in s.byNick && c in members && power && s.byNick[nick] in members
      then OnceEach(members, Kicked(Prefix(s, c), n, nick, reason), fd)
    else if fd != c.socketFd then []
    else if nick == "" then [Numeric(name, 411, "KICK")]
    else if members == {} then [Numeric(name, 403, n)]
    else if nick !in s.byNick then [Numeric(name, 401, nick)]
    else if c !in members then [Numeric(name, 442, n)]
    else if !power then [Numeric(name, 482, n)]
    else [Numeric(name, 441, nick + " " + n)]
  }

  /** Who is left when the kicker `c` has come to this nick. */
  function Left(s: State, c: Client, members: set<Client>, power: bool, nick: string): set<Client> {
    if c in members && power && nick in s.byNick then members - {s.byNick[nick]} else members
  }

  /** What one connection gets of a KICK list: its share of every nick, in order, each with the members
      that are left by then. */
  ghost function KickShares(s: State, c: Client, n: string, members: set<Client>, power: bool, nicks: seq<string>,
                            reason: string, fd: int): seq<Body>
  {
    if nicks == [] then []
    else
      KickShare(s, c, n, members, power, nicks[0], reason, fd)
      + KickShares(s, c, n, Left(s, c, members, power, nicks[0]), power, nicks[1..], reason, fd)
  }

  /** In `t`, on the way through the list, `members` are in the channel, or it is gone and there are none. */
  ghost predicate OnTheWay(s: State, t: State, c: Client, n: string, members: set<Client>, power: bool) {
    && Inv(t) && t.clients == s.clients && t.byNick == s.byNick && members <= s.clients.Keys
    && (n in t.channels <==> members != {})
    && (n in t.channels ==> t.channels[n].members == members)
    && (n in t.channels && c in members ==> (c in t.channels[n].operators <==> power))
  }

  lemma KickOneShare(s: State, t: State, c: Client, n: string, members: set<Client>, power: bool, nick: string,
                     reason: string, fd: int)
    requires Inv(s) && c in s.clients && s.clients[c].nickname != "" && OnTheWay(s, t, c, n, members, power)
    ensures ForFd(KickOne(t, c, n, nick, reason).r, fd) == KickShare(s, c, n, members, power, nick, reason, fd)
  {
    hide Inv, NicksAgree;
    NoEmptyNick(s);
    if n in t.channels && nick in t.byNick && c in members {
      OperatorsAreMembers(t, n);
      DeliveredOnceEach(s, members, Kicked(Prefix(s, c), n, TargetName(s.Rec(s.byNick[nick]).nickname), reason), fd);
      NickOfHolder(s, nick);
    } else if n in t.channels {
      OperatorsAreMembers(t, n);
    }
  }

  lemma NoEmptyNick(s: State)
    requires Inv(s)
    ensures "" !in s.byNick
  {
    assert !ValidNick("");
  }

  lemma NickOfHolder(s: State, nick: string)
    requires Inv(s) && nick in s.byNick
    ensures nick != "" && TargetName(s.Rec(s.byNick[nick]).nickname) == nick
  {
  }

  lemma OperatorsAreMembers(s: State, n: string)
    requires Inv(s) && n in s.channels
    ensures s.channels[n].operators <= s.channels[n].members
  {
    assert ChannelOk(s, n, s.channels[n]);
  }

  lemma KickOneLeaves(s: State, t: State, c: Client, n: string, members: set<Client>, power: bool, nick: string,
                      reason: string)
    requires Inv(s) && c in s.clients && s.clients[c].nickname != "" && OnTheWay(s, t, c, n, members, power)
    ensures OnTheWay(s, KickOne(t, c, n, nick, reason).s, c, n, Left(s, c, members, power, nick), power)
  {
    hide Inv, Deliver;
    NoEmptyNick(s);
    KickOneInv(t, c, n, nick, reason);
    if n in t.channels {
      OperatorsAreMembers(t, n);
      if nick in t.byNick && t.byNick[nick] !in members {
        assert members - {t.byNick[nick]} == members;
      }
    }
  }

  lemma {:induction false} KickManyShares(s: State, t: State, c: Client, n: string, members: set<Client>, power: bool,
                                          nicks: seq<string>, reason: string, fd: int)
    requires Inv(s) && c in s.clients && s.clients[c].nickname != "" && OnTheWay(s, t, c, n, members, power)
    ensures ForFd(KickMany(t, c, n, nicks, reason).r, fd) == KickShares(s, c, n, members, power, nicks, reason, fd)
    decreases |nicks|
  {
    hide Inv, KickOne, KickShare, Left, OnTheWay;
    if nicks == [] {
    } else {
      var one := KickOne(t, c, n, nicks[0], reason);
      KickOneShare(s, t, c, n, members, power, nicks[0], reason, fd);
      KickOneLeaves(s, t, c, n, members, power, nicks[0], reason);
      KickManyShares(s, one.s, c, n, Left(s, c, members, power, nicks[0]), power, nicks[1..], reason, fd);
      ForFdConcat(one.r, KickMany(one.s, c, n, nicks[1..], reason).r, fd);
    }
  }

  /** Who hears what of a KICK, whatever its list: for each nick one announcement to everybody who is in
      the channel by then, the one kicked included, or one refusal to the sender. The reason is the one given,
      or the kicker's nick. */
  lemma KickHeard(s: State, fd: int, m: Message, to: int)
    requires Inv(s) && fd in s.byFd && s.Rec(s.byFd[fd]).registered && CommandOf(m.command).CmdKick?
    requires |m.params| >= 2 && m.params[0] in s.channels
    ensures var c, n := s.byFd[fd], m.params[0];
      ForFd(Dispatch(s, fd, m).r, to)
      == KickShares(s, c, n, s.channels[n].members, c in s.channels[n].operators, Split(m.params[1], ','),
                    if |m.params| > 2 && m.params[2] != "" then m.params[2] else s.clients[c].nickname, to)
  {
    hide KickMany, KickShares;
    var c, n := s.byFd[fd], m.params[0];
    assert ChannelOk(s, n, s.channels[n]);
    assert s.clients[c].nickname != "";
    KickManyShares(s, s, c, n, s.channels[n].members, c in s.channels[n].operators, Split(m.params[1], ','),
                   KickReason(s, c, m.params), to);
  }

  /** Once the kicker is out, by its own nick, no connection hears of another KICK. */
  lemma {:induction false} SilentAfterSelfKick(s: State, c: Client, n: string, members: set<Client>, power: bool,
                                               nicks: seq<string>, reason: string, fd: int)
    requires c !in members
    ensures forall b | b in KickShares(s, c, n, members, power, nicks, reason, fd) :: b.Numeric? && fd == c.socketFd
  {
    if nicks == [] {
    } else {
      SilentAfterSelfKick(s, c, n, members, power, nicks[1..], reason, fd);
    }
  }

  // ----- MODE announcements -----------------------------------------------------------------------

  /** An operator's MODE, whatever its parameters: applying its changes to the old channel gives exactly the
      new channel, operators included. If there are any, every member reads one announcement and nobody else does;
      it is that of the changes exactly when the message is readable. */
  lemma ModeFaithful(s: State, fd: int, m: Message, to: int)
    requires Inv(s) && TextsOk(s) && FromLine(m) && fd in s.byFd && CommandOf(m.command).CmdMode? && |m.params| > 1
    requires m.params[0] in s.channels && s.byFd[fd] in s.channels[m.params[0]].operators
    ensures var o, c, n := Dispatch(s, fd, m), s.byFd[fd], m.params[0];
      var events := Changes(s, c, n, m.params);
      && n in o.s.channels && Replay(s.byNick, s.channels[n], events) == o.s.channels[n]
      && ModeLines(LinesTo(o.r, to))
         == (if events != [] && Hears(s, n, to) then Listed(Told(n, AsRead(events))) else [])
      && (events != [] ==> (AsRead(events) == Some(events) <==> Readable(s, c, s.channels[n], m.params)))
  {
    hide Interpret, ReadMode, TextsOk, Readable, Hears, AsRead;
    var c, n := s.byFd[fd], m.params[0];
    OperatorFacts(s, c, n);
    assert s.Rec(c).registered;
    ModeDispatched(s, fd, m);
    ModeReplies(s, c, n, m.params);
    ModeChangesRead(s, c, n, m.params, to);
  }

  lemma ModeDispatched(s: State, fd: int, m: Message)
    requires fd in s.byFd && CommandOf(m.command).CmdMode? && |m.params| > 1 && m.params[0] in s.channels
    requires var c, ch := s.byFd[fd], s.channels[m.params[0]];
      s.Rec(c).registered && c in ch.members && c in ch.operators
    ensures Dispatch(s, fd, m) == ModeChanges(s, s.byFd[fd], m.params[0], m.params)
  {
    hide ModeChanges;
  }

  // ----- Who hears a PRIVMSG ----------------------------------------------------------------------

  /** What one connection gets of one target of a PRIVMSG. */
  ghost function Share(s: State, c: Client, target: string, text: string, fd: int): seq<Body> {
    var sender, name := fd == c.socketFd, TargetName(s.Rec(c).nickname);
    if target == "" then (if sender then [Numeric(name, 411, "PRIVMSG")] else [])
    else if target in s.channels then
      if c !in s.channels[target].members then (if sender then [Numeric(name, 404, target)] else [])
      else if !sender && exists d | d in s.channels[target].members :: d.socketFd == fd
        then [PrivMsg(Prefix(s, c), target, text)] else []
    else if target in s.byNick then
      (if fd == s.byNick[target].socketFd then [PrivMsg(Prefix(s, c), target, text)] else [])
    else if sender then [Numeric(name, if target[0] == '#' then 403 else 401, target)]
    else []
  }

  ghost function Shares(s: State, c: Client, targets: seq<string>, text: string, fd: int): seq<Body> {
    if targets == [] then [] else Share(s, c, targets[0], text, fd) + Shares(s, c, targets[1..], text, fd)
  }

  lemma SendOneShares(s: State, c: Client, target: string, text: string, fd: int)
    requires Inv(s) && c in s.clients
    ensures ForFd(SendOne(s, c, target, text), fd) == Share(s, c, target, text, fd)
  {
    if target in s.channels {
      assert ChannelOk(s, target, s.channels[target]);
      assert target[0] == '#';
      if c in s.channels[target].members {
        ChannelMessageDelivered(s, c, target, text, fd);
      }
    } else if target in s.byNick {
      PrivateMessageDelivered(s, c, target, text, fd);
      assert ValidNick(target);
      assert NickStart(target[0]) && target[0] != '#';
    }
  }

  lemma {:induction false} SendManyShares(s: State, c: Client, targets: seq<string>, text: string, fd: int)
    requires Inv(s) && c in s.clients
    ensures ForFd(SendMany(s, c, targets, text), fd) == Shares(s, c, targets, text, fd)
  {
    hide Inv, SendOne, Share;
    if targets == [] {
    } else {
      SendOneShares(s, c, targets[0], text, fd);
      SendManyShares(s, c, targets[1..], text, fd);
      ForFdConcat(SendOne(s, c, targets[0], text), SendMany(s, c, targets[1..], text), fd);
    }
  }

  /** A PRIVMSG changes nothing, and every connection gets exactly its share of every target, in order. */
  lemma PrivMsgDelivered(s: State, fd: int, m: Message, to: int)
    requires Inv(s) && fd in s.byFd && CommandOf(m.command).CmdPrivMsg? && s.Rec(s.byFd[fd]).registered
    requires |m.params| >= 2 && m.params[1] != ""
    ensures Dispatch(s, fd, m).s == s
    ensures ForFd(Dispatch(s, fd, m).r, to) == Shares(s, s.byFd[fd], Split(m.params[0], ','), m.params[1], to)
  {
    hide SendMany, Shares, Inv;
    SendManyShares(s, s.byFd[fd], Split(m.params[0], ','), m.params[1], to);
  }
}
