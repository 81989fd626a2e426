// Every command keeps the invariant, and nobody gets more out of a command than its authority.
module Safety {
  import opened Text
  import opened Parser
  import opened Clients
  import opened Channels
  import opened Model
  import opened Mode
  import opened Commands

  // ----- Authority -----------------------------------------------------------------------------

  /** `c` may enter: some key gets it past every admission rule. */
  ghost predicate Admissible(ch: ChanRec, c: Client) {
    exists key :: Refusal(ch, c, key) == 0
  }

  /** What a command by `c` may make of a channel that is there before and after. */
  ghost predicate ChannelLawful(a: ChanRec, b: ChanRec, c: Client) {
    && b.name == a.name
    && b.members <= a.members + {c}
    && (c in b.members - a.members ==> Admissible(a, c) && b == a.(members := a.members + {c}))
    && (c !in a.operators ==>
          b.modes == a.modes && b.operators == a.operators && b.invited == a.invited && a.members <= b.members)
    && (b.topic != a.topic ==> c in a.members && (a.modes.topicRestricted ==> c in a.operators))
  }

  ghost predicate ChannelsLawful(s: State, c: Client, t: State) {
    && (forall n | n in s.channels && n in t.channels :: ChannelLawful(s.channels[n], t.channels[n], c))
    && (forall n | n in s.channels && n !in t.channels :: c in s.channels[n].operators)
    && (forall n | n in t.channels && n !in s.channels :: t.channels[n] == Created(n, c))
  }

  /** Records and nicks of all other clients stay as they are. */
  ghost predicate OthersKept(s: State, c: Client, t: State) {
    && t.password == s.password && t.byFd == s.byFd && t.clients.Keys == s.clients.Keys
    && (forall d | d in s.clients && d != c :: t.clients[d] == s.clients[d])
    && (forall nick | nick in s.byNick && s.byNick[nick] != c :: nick in t.byNick && t.byNick[nick] == s.byNick[nick])
    && (forall nick | nick in t.byNick && t.byNick[nick] != c :: nick in s.byNick && s.byNick[nick] == t.byNick[nick])
  }

  ghost predicate Lawful(s: State, c: Client, t: State) {
    OthersKept(s, c, t) && ChannelsLawful(s, c, t)
  }

  ghost predicate Keeps(s: State, c: Client, t: State) {
    Inv(t) && Lawful(s, c, t)
  }

  // ----- One channel changes, or none ------------------------------------------------------------

  lemma OneChannelInv(s: State, n: string, ch: ChanRec)
    requires Inv(s) && ChannelOk(s, n, ch)
    ensures Inv(s.WithChannel(n, ch))
  {
    var t := s.WithChannel(n, ch);
    forall m | m in t.channels ensures ChannelOk(t, m, t.channels[m]) {
      if m != n { assert ChannelOk(s, m, s.channels[m]); }
    }
  }

  lemma OneChannelLawful(s: State, c: Client, n: string, ch: ChanRec)
    requires n in s.channels && ChannelLawful(s.channels[n], ch, c)
    ensures Lawful(s, c, s.WithChannel(n, ch))
  {
  }

  // ----- PASS, NICK, USER ------------------------------------------------------------------------

  /** Registering a client whose record may be complete but not yet registered. */
  lemma RegisterKeeps(s: State, c: Client)
    requires FdsAgree(s) && NicksAgree(s) && ChannelsAgree(s) && c in s.clients
    requires forall d | d in s.clients && d != c :: s.clients[d].registered <==> s.clients[d].Complete()
    requires s.clients[c].registered ==> s.clients[c].Complete()
    ensures Inv(Register(s, c).s)
    ensures OthersKept(s, c, Register(s, c).s) && Register(s, c).s.channels == s.channels
  {
    hide ValidNick, ChannelOk;
    var t := Register(s, c).s;
    assert t.clients.Keys == s.clients.Keys;
    ChannelsKept(s, t);
  }

  lemma WithRecKeeps(s: State, c: Client, r: ClientRec)
    requires Inv(s) && c in s.clients
    requires r.nickname == s.clients[c].nickname && r.registered == s.clients[c].registered
    ensures var t := s.WithRec(c, r);
      FdsAgree(t) && NicksAgree(t) && ChannelsAgree(t) && OthersKept(s, c, t)
  {
    var t := s.WithRec(c, r);
    assert t.clients.Keys == s.clients.Keys;
    ChannelsKept(s, t);
  }

  /** The relation PASS, NICK and USER keep: one record may change, channels do not. */
  ghost predicate LoginRel(s: State, c: Client, t: State) {
    OthersKept(s, c, t) && t.channels == s.channels
  }

  lemma PassKeeps(s: State, c: Client, params: seq<string>)
    requires Inv(s) && c in s.clients
    ensures var t := Pass(s, c, params).s; Inv(t) && LoginRel(s, c, t)
  {
    var r := s.clients[c];
    if |params| >= 1 && !r.registered && params[0] == s.password {
      var u := r.(passAccepted := true);
      WithRecKeeps(s, c, u);
      RegisterKeeps(s.WithRec(c, u), c);
    }
  }

  lemma ClaimKeeps(s: State, c: Client, nick: string)
    requires Inv(s) && c in s.clients && ValidNick(nick)
    ensures var t := UpdateNickname(s, c, nick).0;
      && FdsAgree(t) && NicksAgree(t) && ChannelsAgree(t) && LoginRel(s, c, t)
      && t.clients[c] == s.clients[c].(nickname := t.clients[c].nickname)
      && (s.clients[c].nickname != "" ==> t.clients[c].nickname != "")
  {
    hide ValidNick, FdsAgree;
    var t := UpdateNickname(s, c, nick).0;
    UpdateNicknameInv(s, c, nick);
    ClaimOthers(s, c, nick);
    ChannelsKept(s, t);
  }

  lemma ClaimOthers(s: State, c: Client, nick: string)
    requires NicksAgree(s) && c in s.clients
    ensures var t := UpdateNickname(s, c, nick).0;
      && t.password == s.password && t.byFd == s.byFd
      && (forall d | d in s.clients && d != c :: t.clients[d] == s.clients[d])
      && (forall n | n in s.byNick && s.byNick[n] != c :: n in t.byNick && t.byNick[n] == s.byNick[n])
      && (forall n | n in t.byNick && t.byNick[n] != c :: n in s.byNick && s.byNick[n] == t.byNick[n])
  {
    hide ValidNick;
  }

  lemma NickKeeps(s: State, c: Client, params: seq<string>)
    requires Inv(s) && c in s.clients
    ensures var t := Nick(s, c, params).s; Inv(t) && LoginRel(s, c, t)
  {
    if |params| >= 1 && ValidNick(params[0]) {
      var t := UpdateNickname(s, c, params[0]).0;
      ClaimKeeps(s, c, params[0]);
      RegisterKeeps(t, c);
    }
  }

  lemma UserKeeps(s: State, c: Client, params: seq<string>)
    requires Inv(s) && c in s.clients
    ensures var t := User(s, c, params).s; Inv(t) && LoginRel(s, c, t)
  {
    var r := s.clients[c];
    if |params| >= 4 && !r.registered {
      var u := r.(username := params[0], realname := params[3]);
      WithRecKeeps(s, c, u);
      RegisterKeeps(s.WithRec(c, u), c);
    }
  }

  lemma LoginRelLawful(s: State, c: Client, t: State)
    requires LoginRel(s, c, t)
    ensures Lawful(s, c, t)
  {
  }

  // ----- JOIN ------------------------------------------------------------------------------------

  /** What a JOIN does, whatever the names and keys: enter channels that admit `c`, create others. */
  ghost predicate JoinRel(s: State, c: Client, t: State) {
    && t == s.(channels := t.channels)
    && (forall n | n in s.channels :: n in t.channels
          && (t.channels[n] == s.channels[n]
              || (c !in s.channels[n].members && Admissible(s.channels[n], c)
                  && t.channels[n] == s.channels[n].(members := s.channels[n].members + {c}))))
    && (forall n | n in t.channels && n !in s.channels :: t.channels[n] == Created(n, c))
  }

  lemma CreateKeeps(s: State, c: Client, name: string)
    requires Inv(s) && c in s.clients && s.clients[c].registered && ValidChannelName(name) && name !in s.channels
    ensures var t := s.WithChannel(name, Created(name, c)); Inv(t) && JoinRel(s, c, t)
  {
    hide ValidChannelName;
    OneChannelInv(s, name, Created(name, c));
  }

  lemma EnterKeeps(s: State, c: Client, name: string, key: string)
    requires Inv(s) && c in s.clients && s.clients[c].registered && name in s.channels
    requires c !in s.channels[name].members && Refusal(s.channels[name], c, key) == 0
    ensures var t := s.WithChannel(name, s.channels[name].(members := s.channels[name].members + {c}));
      Inv(t) && JoinRel(s, c, t)
  {
    hide ValidChannelName;
    var ch := s.channels[name];
    assert ChannelOk(s, name, ch);
    OneChannelInv(s, name, ch.(members := ch.members + {c}));
  }

  lemma JoinOneKeeps(s: State, c: Client, name: string, key: string)
    requires Inv(s) && c in s.clients && s.clients[c].registered
    ensures var t := JoinOne(s, c, name, key).s; Inv(t) && JoinRel(s, c, t)
  {
    hide Inv, JoinRel, JoinReplies, ValidChannelName, Refusal;
    SameJoined(s, c);
    if ValidChannelName(name) {
      if name !in s.channels {
        CreateKeeps(s, c, name);
      } else if c !in s.channels[name].members && Refusal(s.channels[name], c, key) == 0 {
        EnterKeeps(s, c, name, key);
      }
    }
  }

  lemma SameJoined(s: State, c: Client)
    ensures JoinRel(s, c, s)
  {
  }

  lemma JoinRelTransitive(s: State, c: Client, t: State, u: State)
    requires JoinRel(s, c, t) && JoinRel(t, c, u)
    ensures JoinRel(s, c, u)
  {
    forall n | n in s.channels
      ensures n in u.channels && (u.channels[n] == s.channels[n]
        || (c !in s.channels[n].members && Admissible(s.channels[n], c)
            && u.channels[n] == s.channels[n].(members := s.channels[n].members + {c})))
    {
      assert n in t.channels;
    }
    forall n | n in u.channels && n !in s.channels ensures u.channels[n] == Created(n, c) {
      if n in t.channels { assert c in t.channels[n].members; }
    }
  }

  lemma {:induction false} JoinManyKeeps(s: State, c: Client, names: seq<string>, keys: seq<string>)
    requires Inv(s) && c in s.clients && s.clients[c].registered
    ensures var t := JoinMany(s, c, names, keys).s; Inv(t) && JoinRel(s, c, t)
    decreases |names|
  {
    if names == [] {
    } else {
      var key := if keys == [] then "" else keys[0];
      var u := JoinOne(s, c, names[0], key).s;
      JoinOneKeeps(s, c, names[0], key);
      JoinManyKeeps(u, c, names[1..], if keys == [] then [] else keys[1..]);
      JoinRelTransitive(s, c, u, JoinMany(s, c, names, keys).s);
    }
  }

  lemma JoinRelLawful(s: State, c: Client, t: State)
    requires JoinRel(s, c, t)
    ensures Lawful(s, c, t)
  {
  }

  // ----- KICK ------------------------------------------------------------------------------------

  /** The channel `n` without the clients in `v`, and no channel when that leaves it empty. */
  function RemoveAll(s: State, n: string, v: set<Client>): State
    requires n in s.channels
  {
    var ch := s.channels[n];
    DropIfEmpty(s.WithChannel(n,
      ch.(members := ch.members - v, operators := ch.operators - v, invited := ch.invited - v)), n)
  }

  /** The clients that `nicks` resolves to among the members. */
  function Victims(s: State, members: set<Client>, nicks: seq<string>): set<Client> {
    if nicks == [] then {}
    else
      (if nicks[0] in s.byNick && s.byNick[nicks[0]] in members then {s.byNick[nicks[0]]} else {})
      + Victims(s, members, nicks[1..])
  }

  /** The names up to and including the first `own`. */
  function UpTo(nicks: seq<string>, own: string): seq<string> {
    if nicks == [] then []
    else if nicks[0] == own then [own]
    else [nicks[0]] + UpTo(nicks[1..], own)
  }

  lemma {:induction false} KickWithoutPower(s: State, c: Client, n: string, nicks: seq<string>, reason: string)
    requires n in s.channels ==> c !in s.channels[n].operators
    ensures KickMany(s, c, n, nicks, reason).s == s
    decreases |nicks|
  {
    if nicks == [] {
    } else {
      KickWithoutPower(s, c, n, nicks[1..], reason);
    }
  }

  lemma {:induction false} VictimsFewer(s: State, a: set<Client>, t: Client, nicks: seq<string>)
    ensures Victims(s, a - {t}, nicks) == Victims(s, a, nicks) - {t}
  {
    if nicks == [] {
    } else {
      VictimsFewer(s, a, t, nicks[1..]);
    }
  }

  lemma {:induction false} VictimsSame(s: State, t: State, a: set<Client>, nicks: seq<string>)
    requires s.byNick == t.byNick
    ensures Victims(s, a, nicks) == Victims(t, a, nicks)
  {
    if nicks == [] {
    } else {
      VictimsSame(s, t, a, nicks[1..]);
    }
  }

  lemma RemoveNobody(s: State, n: string)
    requires n in s.channels && s.channels[n].members != {}
    ensures RemoveAll(s, n, {}) == s
  {
    var ch := s.channels[n];
    assert ch.members - {} == ch.members && ch.operators - {} == ch.operators && ch.invited - {} == ch.invited;
  }

  lemma RemoveTwice(s: State, n: string, t: Client, v: set<Client>)
    requires n in s.channels && s.channels[n].members - {t} != {}
    ensures n in RemoveAll(s, n, {t}).channels
    ensures RemoveAll(RemoveAll(s, n, {t}), n, v) == RemoveAll(s, n, {t} + v)
  {
    var ch := s.channels[n];
    assert ch.members - {t} - v == ch.members - ({t} + v);
    assert ch.operators - {t} - v == ch.operators - ({t} + v);
    assert ch.invited - {t} - v == ch.invited - ({t} + v);
    var one := RemoveAll(s, n, {t});
    assert one.channels[n := ch] == s.channels[n := ch];
  }

  /** What the invariant says of an operator. */
  lemma OperatorFacts(s: State, c: Client, n: string)
    requires Inv(s) && n in s.channels && c in s.channels[n].operators
    ensures c in s.clients && c in s.channels[n].members && s.channels[n].members != {}
    ensures s.clients[c].nickname != "" && s.clients[c].nickname in s.byNick && s.byNick[s.clients[c].nickname] == c
  {
    assert ChannelOk(s, n, s.channels[n]) && s.Rec(c).registered;
  }

  lemma KickSelf(s: State, c: Client, n: string, nicks: seq<string>, reason: string)
    requires Inv(s) && n in s.channels && c in s.channels[n].operators
    requires c in s.clients && nicks != [] && nicks[0] == s.clients[c].nickname
    ensures KickMany(s, c, n, nicks, reason).s
         == RemoveAll(s, n, Victims(s, s.channels[n].members, UpTo(nicks, s.clients[c].nickname)))
  {
    hide Inv;
    OperatorFacts(s, c, n);
    var own := s.clients[c].nickname;
    var u := KickOne(s, c, n, own, reason).s;
    assert UpTo(nicks, own)[1..] == [];
    assert Victims(s, s.channels[n].members, UpTo(nicks, own)) == {c};
    assert u == RemoveAll(s, n, {c});
    KickWithoutPower(u, c, n, nicks[1..], reason);
  }

  lemma KickMiss(s: State, c: Client, n: string, nick: string, reason: string)
    requires n in s.channels && !(nick in s.byNick && s.byNick[nick] in s.channels[n].members)
    ensures KickOne(s, c, n, nick, reason).s == s
  {
  }

  /** KICK by an operator removes exactly the listed members up to and including the kicker;
      whatever is listed after a self-kick has no effect. */
  lemma {:induction false} KickExact(s: State, c: Client, n: string, nicks: seq<string>, reason: string)
    requires Inv(s) && n in s.channels && c in s.channels[n].operators
    ensures KickMany(s, c, n, nicks, reason).s
         == RemoveAll(s, n, Victims(s, s.channels[n].members, UpTo(nicks, s.clients[c].nickname)))
    decreases |nicks|
  {
    hide Inv, KickOne, RemoveAll;
    OperatorFacts(s, c, n);
    var ch, own := s.channels[n], s.clients[c].nickname;
    if nicks == [] {
      RemoveNobody(s, n);
    } else if nicks[0] == own {
      KickSelf(s, c, n, nicks, reason);
    } else {
      var nick, rest := nicks[0], UpTo(nicks[1..], own);
      assert UpTo(nicks, own)[1..] == rest;
      if nick in s.byNick && s.byNick[nick] in ch.members {
        KickOther(s, c, n, nick, reason);
        KickExact(KickOne(s, c, n, nick, reason).s, c, n, nicks[1..], reason);
        VictimsAfter(s, n, s.byNick[nick], rest);
      } else {
        KickMiss(s, c, n, nick, reason);
        KickExact(s, c, n, nicks[1..], reason);
        assert {} + Victims(s, ch.members, rest) == Victims(s, ch.members, rest);
      }
    }
  }

  lemma KickOther(s: State, c: Client, n: string, nick: string, reason: string)
    requires Inv(s) && n in s.channels && c in s.channels[n].operators
    requires nick in s.byNick && s.byNick[nick] in s.channels[n].members && nick != s.clients[c].nickname
    ensures var u := KickOne(s, c, n, nick, reason).s;
      && u == RemoveAll(s, n, {s.byNick[nick]}) && Inv(u)
      && n in u.channels && c in u.channels[n].operators && u.clients == s.clients
      && s.channels[n].members - {s.byNick[nick]} != {}
  {
    var t := s.byNick[nick];
    assert ChannelOk(s, n, s.channels[n]) && s.Rec(c).registered;
    assert c in s.channels[n].members - {t};
    RemoveAllKeeps(s, n, {t});
  }

  lemma VictimsAfter(s: State, n: string, t: Client, nicks: seq<string>)
    requires n in s.channels && s.channels[n].members - {t} != {}
    ensures var u, members := RemoveAll(s, n, {t}), s.channels[n].members;
      n in u.channels
      && RemoveAll(u, n, Victims(u, u.channels[n].members, nicks)) == RemoveAll(s, n, {t} + Victims(s, members, nicks))
  {
    var u, members := RemoveAll(s, n, {t}), s.channels[n].members;
    var v := Victims(s, members, nicks);
    RemoveTwice(s, n, t, v - {t});
    VictimsSame(s, u, members - {t}, nicks);
    VictimsFewer(s, members, t, nicks);
    assert {t} + (v - {t}) == {t} + v;
  }

  lemma RemoveAllKeeps(s: State, n: string, v: set<Client>)
    requires Inv(s) && n in s.channels
    ensures Inv(RemoveAll(s, n, v))
  {
    var ch, t := s.channels[n], RemoveAll(s, n, v);
    assert ChannelOk(s, n, ch);
    forall m | m in t.channels ensures ChannelOk(t, m, t.channels[m]) {
      assert ChannelOk(s, m, s.channels[m]);
    }
  }

  lemma RemoveAllLawful(s: State, c: Client, n: string, v: set<Client>)
    requires n in s.channels && c in s.channels[n].operators
    ensures Lawful(s, c, RemoveAll(s, n, v))
  {
    hide Admissible, ChannelLawful;
    var t := RemoveAll(s, n, v);
    forall m | m in s.channels && m in t.channels ensures ChannelLawful(s.channels[m], t.channels[m], c) {
      FewerLawful(s.channels[m], c, if m == n then v else {});
    }
  }

  lemma FewerLawful(ch: ChanRec, c: Client, v: set<Client>)
    requires v != {} ==> c in ch.operators
    ensures ChannelLawful(ch, ch.(members := ch.members - v, operators := ch.operators - v,
                              invited := ch.invited - v), c)
    ensures v == {} ==> ch == ch.(members := ch.members - v, operators := ch.operators - v, invited := ch.invited - v)
  {
    hide Admissible;
  }

  lemma KickOneInv(s: State, c: Client, n: string, nick: string, reason: string)
    requires Inv(s) && c in s.clients
    ensures var t := KickOne(s, c, n, nick, reason).s;
      Inv(t) && t.byFd == s.byFd && t.byNick == s.byNick && t.clients == s.clients
  {
    hide Inv, Deliver;
    var t := KickOne(s, c, n, nick, reason).s;
    if t != s {
      assert t == RemoveAll(s, n, {s.byNick[nick]});
      RemoveAllKeeps(s, n, {s.byNick[nick]});
    }
  }

  /** Whom a KICK with these parameters removes when its sender may. */
  function KickVictims(s: State, c: Client, params: seq<string>): set<Client>
    requires |params| >= 2 && params[0] in s.channels
  {
    Victims(s, s.channels[params[0]].members, UpTo(Split(params[1], ','), s.Rec(c).nickname))
  }

  /** KICK in one equation: by an operator it removes the victims at once, by anybody else nobody. */
  lemma KickEquation(s: State, c: Client, params: seq<string>)
    requires Inv(s) && c in s.clients
    ensures Kick(s, c, params).s
         == if |params| >= 2 && params[0] in s.channels && c in s.channels[params[0]].operators
            then RemoveAll(s, params[0], KickVictims(s, c, params)) else s
  {
    if |params| >= 2 && params[0] in s.channels {
      var n, nicks, reason := params[0], Split(params[1], ','), KickReason(s, c, params);
      if c in s.channels[n].operators {
        KickExact(s, c, n, nicks, reason);
      } else {
        KickWithoutPower(s, c, n, nicks, reason);
      }
    }
  }

  lemma KickKeeps(s: State, c: Client, params: seq<string>)
    requires Inv(s) && c in s.clients
    ensures Keeps(s, c, Kick(s, c, params).s)
  {
    KickEquation(s, c, params);
    NothingLawful(s, c);
    if |params| >= 2 && params[0] in s.channels && c in s.channels[params[0]].operators {
      RemoveAllKeeps(s, params[0], KickVictims(s, c, params));
      RemoveAllLawful(s, c, params[0], KickVictims(s, c, params));
    }
  }

  // ----- INVITE, TOPIC, MODE -----------------------------------------------------------------------

  /** Putting a new value in the place of one channel, within the invariant and within the law. */
  lemma ReplaceKeeps(s: State, c: Client, n: string, ch: ChanRec)
    requires Inv(s) && c in s.clients
    requires n in s.channels && ChannelOk(s, n, ch) && ChannelLawful(s.channels[n], ch, c)
    ensures Keeps(s, c, s.WithChannel(n, ch))
  {
    OneChannelInv(s, n, ch);
    OneChannelLawful(s, c, n, ch);
  }

  lemma InviteKeeps(s: State, c: Client, params: seq<string>)
    requires Inv(s) && c in s.clients
    ensures Keeps(s, c, Invite(s, c, params).s)
  {
    var t := Invite(s, c, params).s;
    if t == s {
      NothingLawful(s, c);
    } else {
      var n, target := params[1], s.byNick[params[0]];
      var ch := s.channels[n];
      assert ChannelOk(s, n, ch);
      ReplaceKeeps(s, c, n, ch.(invited := ch.invited + {target}));
    }
  }

  lemma TopicKeeps(s: State, c: Client, params: seq<string>)
    requires Inv(s) && c in s.clients
    ensures Keeps(s, c, Topic(s, c, params).s)
  {
    var t := Topic(s, c, params).s;
    if t == s {
      NothingLawful(s, c);
    } else {
      var ch := s.channels[params[0]];
      assert ChannelOk(s, params[0], ch);
      ReplaceKeeps(s, c, params[0], ch.(topic := params[1]));
    }
  }

  lemma ModeKeeps(s: State, c: Client, params: seq<string>)
    requires Inv(s) && c in s.clients
    ensures Keeps(s, c, ModeCmd(s, c, params).s)
  {
    if |params| >= 2 && params[0] in s.channels && c in s.channels[params[0]].operators {
      var n := params[0];
      var ch := s.channels[n];
      assert ChannelOk(s, n, ch);
      InterpretFrame(s, c, params, Start(ch), params[1]);
      ReplaceKeeps(s, c, n, Interpret(s, c, params, Start(ch), params[1]).ch);
    } else {
      NothingLawful(s, c);
    }
  }

  // ----- Every command -----------------------------------------------------------------------------

  lemma NothingLawful(s: State, c: Client)
    ensures Lawful(s, c, s)
  {
  }

  lemma JoinKeeps(s: State, c: Client, params: seq<string>)
    requires Inv(s) && c in s.clients && s.clients[c].registered
    ensures var t := Join(s, c, params).s; Inv(t) && JoinRel(s, c, t)
  {
    if |params| >= 1 {
      JoinManyKeeps(s, c, Split(params[0], ','), if |params| > 1 then Split(params[1], ',') else []);
    }
  }

  lemma PassCase(s: State, c: Client, params: seq<string>)
    requires Inv(s) && c in s.clients
    ensures Keeps(s, c, Pass(s, c, params).s)
  {
    PassKeeps(s, c, params);
    LoginRelLawful(s, c, Pass(s, c, params).s);
  }

  lemma NickCase(s: State, c: Client, params: seq<string>)
    requires Inv(s) && c in s.clients
    ensures Keeps(s, c, Nick(s, c, params).s)
  {
    NickKeeps(s, c, params);
    LoginRelLawful(s, c, Nick(s, c, params).s);
  }

  lemma UserCase(s: State, c: Client, params: seq<string>)
    requires Inv(s) && c in s.clients
    ensures Keeps(s, c, User(s, c, params).s)
  {
    UserKeeps(s, c, params);
    LoginRelLawful(s, c, User(s, c, params).s);
  }

  lemma JoinCase(s: State, c: Client, params: seq<string>)
    requires Inv(s) && c in s.clients && s.clients[c].registered
    ensures Keeps(s, c, Join(s, c, params).s)
  {
    JoinKeeps(s, c, params);
    JoinRelLawful(s, c, Join(s, c, params).s);
  }

  lemma SilentCase(s: State, c: Client, cmd: Command, m: Message)
    requires Inv(s)
    requires cmd.CmdPrivMsg? || cmd.CmdPing? || cmd.CmdCap? || cmd.CmdInvalid?
    ensures Execute(s, c, cmd, m).s == s && Keeps(s, c, s)
  {
    NothingLawful(s, c);
  }

  lemma ExecuteKeeps(s: State, c: Client, cmd: Command, m: Message)
    requires Inv(s) && c in s.clients
    requires OpenToAll(cmd) || s.clients[c].registered
    ensures Keeps(s, c, Execute(s, c, cmd, m).s)
  {
    hide Inv, Keeps, Pass, Nick, User, Join, Kick, Invite, Topic, ModeCmd, PrivMsgCmd, Ping, CapCmd;
    match cmd {
      case CmdPass => PassCase(s, c, m.params);
      case CmdNick => NickCase(s, c, m.params);
      case CmdUser => UserCase(s, c, m.params);
      case CmdJoin => JoinCase(s, c, m.params);
      case CmdKick => KickKeeps(s, c, m.params);
      case CmdInvite => InviteKeeps(s, c, m.params);
      case CmdTopic => TopicKeeps(s, c, m.params);
      case CmdMode => ModeKeeps(s, c, m.params);
      case _ => SilentCase(s, c, cmd, m);
    }
  }

  /** The global invariant survives every message from every connection. */
  lemma DispatchInv(s: State, fd: int, m: Message)
    requires Inv(s)
    ensures Inv(Dispatch(s, fd, m).s)
  {
    var cmd := CommandOf(m.command);
    if fd in s.byFd && (OpenToAll(cmd) || s.Rec(s.byFd[fd]).registered) {
      ExecuteKeeps(s, s.byFd[fd], cmd, m);
    }
  }

  /** Authority over any dispatch: only the sender can enter a channel, only an operator changes its
      modes, operators or invitations or takes a member out, and no other client is touched. */
  lemma DispatchAuthority(s: State, fd: int, m: Message)
    requires Inv(s) && fd in s.byFd
    ensures Lawful(s, s.byFd[fd], Dispatch(s, fd, m).s)
  {
    var cmd := CommandOf(m.command);
    NothingLawful(s, s.byFd[fd]);
    if OpenToAll(cmd) || s.Rec(s.byFd[fd]).registered {
      ExecuteKeeps(s, s.byFd[fd], cmd, m);
    }
  }

  // ----- Invitations -------------------------------------------------------------------------------

  /** An INVITE by an operator of the channel, by name. */
  ghost predicate InvitedBy(s: State, c: Client, m: Message, n: string, d: Client) {
    && CommandOf(m.command).CmdInvite? && |m.params| > 1 && m.params[1] == n
    && n in s.channels && c in s.channels[n].operators
    && m.params[0] in s.byNick && s.byNick[m.params[0]] == d
  }

  /** No channel gains an invitation. */
  ghost predicate NoInvitation(s: State, t: State) {
    forall n | n in s.channels && n in t.channels :: t.channels[n].invited <= s.channels[n].invited
  }

  lemma JoinInvitesNobody(s: State, c: Client, t: State)
    requires JoinRel(s, c, t) || t.channels == s.channels
    ensures NoInvitation(s, t)
  {
  }

  lemma KickInvitesNobody(s: State, c: Client, params: seq<string>)
    requires Inv(s) && c in s.clients
    ensures NoInvitation(s, Kick(s, c, params).s)
  {
    KickEquation(s, c, params);
  }

  lemma ModeInvitesNobody(s: State, c: Client, params: seq<string>)
    ensures NoInvitation(s, ModeCmd(s, c, params).s)
  {
    if |params| >= 2 && params[0] in s.channels {
      InterpretFrame(s, c, params, Start(s.channels[params[0]]), params[1]);
    }
  }

  lemma JoinCaseInvites(s: State, c: Client, params: seq<string>)
    requires Inv(s) && c in s.clients && s.clients[c].registered
    ensures NoInvitation(s, Join(s, c, params).s)
  {
    JoinKeeps(s, c, params);
    JoinInvitesNobody(s, c, Join(s, c, params).s);
  }

  lemma LoginInvitesNobody(s: State, c: Client, params: seq<string>)
    requires Inv(s) && c in s.clients
    ensures NoInvitation(s, Pass(s, c, params).s)
    ensures NoInvitation(s, Nick(s, c, params).s)
    ensures NoInvitation(s, User(s, c, params).s)
  {
    PassKeeps(s, c, params);
    NickKeeps(s, c, params);
    UserKeeps(s, c, params);
  }

  lemma QuietInvitesNobody(s: State, c: Client, cmd: Command, m: Message)
    requires cmd.CmdPrivMsg? || cmd.CmdPing? || cmd.CmdCap? || cmd.CmdInvalid? || cmd.CmdTopic?
    ensures NoInvitation(s, Execute(s, c, cmd, m).s)
  {
  }

  lemma OthersInviteNobody(s: State, c: Client, cmd: Command, m: Message)
    requires Inv(s) && c in s.clients
    requires OpenToAll(cmd) || s.clients[c].registered
    requires !cmd.CmdInvite?
    ensures NoInvitation(s, Execute(s, c, cmd, m).s)
  {
    match cmd {
      case CmdPass => LoginInvitesNobody(s, c, m.params);
      case CmdNick => LoginInvitesNobody(s, c, m.params);
      case CmdUser => LoginInvitesNobody(s, c, m.params);
      case CmdJoin => JoinCaseInvites(s, c, m.params);
      case CmdKick => KickInvitesNobody(s, c, m.params);
      case CmdMode => ModeInvitesNobody(s, c, m.params);
      case _ => QuietInvitesNobody(s, c, cmd, m);
    }
  }

  lemma SenderLives(s: State, fd: int)
    requires Inv(s) && fd in s.byFd
    ensures s.byFd[fd] in s.clients
  {
  }

  /** The only way to become invited is an INVITE by an operator of the channel. */
  lemma DispatchInvitations(s: State, fd: int, m: Message, n: string, d: Client)
    requires Inv(s) && fd in s.byFd && n in s.channels
    requires d !in s.channels[n].invited
    requires var t := Dispatch(s, fd, m).s; n in t.channels && d in t.channels[n].invited
    ensures InvitedBy(s, s.byFd[fd], m, n, d)
  {
    hide Inv, Pass, Nick, User, Join, Kick, Topic, ModeCmd, PrivMsgCmd, Ping, CapCmd;
    var c, cmd := s.byFd[fd], CommandOf(m.command);
    assert Dispatch(s, fd, m) == Execute(s, c, cmd, m);
    if !cmd.CmdInvite? {
      SenderLives(s, fd);
      OthersInviteNobody(s, c, cmd, m);
    }
  }

  // ----- Operators ---------------------------------------------------------------------------------

  /** A MODE by an operator of the channel that names the nick of `d` under +o. */
  ghost predicate PromotedBy(s: State, c: Client, m: Message, n: string, d: Client) {
    && CommandOf(m.command).CmdMode? && |m.params| > 1 && m.params[0] == n
    && n in s.channels && c in s.channels[n].operators
    && Grants(s, c, s.channels[n], m.params, d)
  }

  /** No channel gains an operator. */
  ghost predicate NoPromotion(s: State, t: State) {
    forall n | n in s.channels && n in t.channels :: t.channels[n].operators <= s.channels[n].operators
  }

  lemma LoginPromotesNobody(s: State, c: Client, params: seq<string>)
    requires Inv(s) && c in s.clients
    ensures NoPromotion(s, Pass(s, c, params).s)
    ensures NoPromotion(s, Nick(s, c, params).s)
    ensures NoPromotion(s, User(s, c, params).s)
  {
    hide Inv, Pass, Nick, User;
    PassKeeps(s, c, params);
    NickKeeps(s, c, params);
    UserKeeps(s, c, params);
  }

  lemma JoinPromotesNobody(s: State, c: Client, params: seq<string>)
    requires Inv(s) && c in s.clients && s.clients[c].registered
    ensures NoPromotion(s, Join(s, c, params).s)
  {
    hide Inv, Join;
    JoinKeeps(s, c, params);
  }

  lemma KickPromotesNobody(s: State, c: Client, params: seq<string>)
    requires Inv(s) && c in s.clients
    ensures NoPromotion(s, Kick(s, c, params).s)
  {
    hide Inv, Kick, KickVictims;
    KickEquation(s, c, params);
  }

  lemma QuietPromotesNobody(s: State, c: Client, cmd: Command, m: Message)
    requires cmd.CmdPrivMsg? || cmd.CmdPing? || cmd.CmdCap? || cmd.CmdInvalid? || cmd.CmdTopic? || cmd.CmdInvite?
    ensures NoPromotion(s, Execute(s, c, cmd, m).s)
  {
    hide Deliver, SendMany;
  }

  lemma OthersPromoteNobody(s: State, c: Client, cmd: Command, m: Message)
    requires Inv(s) && c in s.clients
    requires OpenToAll(cmd) || s.clients[c].registered
    requires !cmd.CmdMode?
    ensures NoPromotion(s, Execute(s, c, cmd, m).s)
  {
    hide Inv, Pass, Nick, User, Join, Kick, NoPromotion;
    match cmd {
      case CmdPass => LoginPromotesNobody(s, c, m.params);
      case CmdNick => LoginPromotesNobody(s, c, m.params);
      case CmdUser => LoginPromotesNobody(s, c, m.params);
      case CmdJoin => JoinPromotesNobody(s, c, m.params);
      case CmdKick => KickPromotesNobody(s, c, m.params);
      case _ => QuietPromotesNobody(s, c, cmd, m);
    }
  }

  lemma AnyGrant(s: State, c: Client, ch: ChanRec, params: seq<string>, d: Client)
    requires |params| > 1 && exists i | 0 <= i < |params[1]| :: GrantsAt(s, c, ch, params, i, d)
    ensures Grants(s, c, ch, params, d)
  {
  }

  lemma ModePromotes(s: State, c: Client, m: Message, n: string, d: Client)
    requires Inv(s) && n in s.channels && d !in s.channels[n].operators && CommandOf(m.command).CmdMode?
    requires var t := ModeCmd(s, c, m.params).s; n in t.channels && d in t.channels[n].operators
    ensures PromotedBy(s, c, m, n, d)
  {
    hide Inv, Interpret, Deliver, Grants;
    var params := m.params;
    assert |params| > 1 && params[0] == n && c in s.channels[n].operators;
    assert params[1][..|params[1]|] == params[1];
    InterpretGrants(s, c, s.channels[n], params, |params[1]|, d);
    AnyGrant(s, c, s.channels[n], params, d);
  }

  /** The only way to become operator of a channel that is there is a MODE by an operator of it that
      names one's nick under +o. */
  lemma DispatchOperators(s: State, fd: int, m: Message, n: string, d: Client)
    requires Inv(s) && fd in s.byFd && n in s.channels
    requires d !in s.channels[n].operators
    requires var t := Dispatch(s, fd, m).s; n in t.channels && d in t.channels[n].operators
    ensures PromotedBy(s, s.byFd[fd], m, n, d)
  {
    hide Execute, PromotedBy;
    var c, cmd := s.byFd[fd], CommandOf(m.command);
    assert Dispatch(s, fd, m) == Execute(s, c, cmd, m);
    if cmd.CmdMode? {
      ExecuteMode(s, c, m);
      ModePromotes(s, c, m, n, d);
    } else {
      OthersPromoteNobody(s, c, cmd, m);
    }
  }

  lemma ExecuteMode(s: State, c: Client, m: Message)
    ensures Execute(s, c, CmdMode, m) == ModeCmd(s, c, m.params)
  {
    hide ModeCmd;
  }
}
