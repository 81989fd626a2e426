// The state of src/ServerState.cpp as a value, its life-cycle operations, and the
// invariant every operation keeps.
module Model {
  import opened Text
  import opened Clients
  import opened Channels
  import opened Replies

  /** A Client reference is only an identity here; its record is in `clients`, the live objects. */
  datatype State = State(
    password: string,
    clients: map<Client, ClientRec>,
    byFd: map<int, Client>,
    byNick: map<string, Client>,
    channels: map<string, ChanRec>
  ) {
    function Rec(c: Client): ClientRec {
      if c in clients then clients[c] else NEW_CLIENT
    }

    function WithRec(c: Client, r: ClientRec): State {
      this.(clients := clients[c := r])
    }

    function WithChannel(n: string, ch: ChanRec): State {
      this.(channels := channels[n := ch])
    }
  }

  function NewServer(password: string): State {
    State(password, map[], map[], map[], map[])
  }

  // ----- Names ------------------------------------------------------------------------------

  /** CommandDispatcher::_isLetterSpecial */
  predicate LetterSpecial(c: char) {
    c == '_' || c == '[' || c == ']' || c == '\\' || c == '`' || c == '^' || c == '{' || c == '}' || c == '|'
  }

  predicate NickStart(c: char) { IsAlpha(c) || LetterSpecial(c) }

  predicate NickChar(c: char) { IsAlpha(c) || IsDigit(c) || LetterSpecial(c) || c == '-' }

  predicate ValidNick(nick: string) {
    nick != "" && NickStart(nick[0]) && forall x | x in nick :: NickChar(x)
  }

  predicate ChannelChar(c: char) { !IsSpace(c) && c != ',' && c != ':' && !IsCntrl(c) }

  predicate ValidChannelName(name: string) {
    |name| > 1 && name[0] == '#' && forall x | x in name :: ChannelChar(x)
  }

  /** The characters of a nick, and those it may start with. */
  lemma NickExact(nick: string)
    ensures ValidNick(nick) <==>
      && |nick| >= 1
      && (forall i | 0 <= i < |nick| ::
            nick[i] in LOWER + UPPER + FIGURES + {'-', '_', '[', ']', '\\', '`', '^', '{', '}', '|'})
      && nick[0] !in FIGURES + {'-'}
  {
    forall i | 0 <= i < |nick|
      ensures NickChar(nick[i]) <==>
        nick[i] in LOWER + UPPER + FIGURES + {'-', '_', '[', ']', '\\', '`', '^', '{', '}', '|'}
    {
      ClassesExact(nick[i]);
    }
    if nick != "" {
      ClassesExact(nick[0]);
      assert nick[0] in nick;
    }
  }

  /** A channel name: '#', and then at least one character, none of them a space, a control character, a comma or a
      colon. */
  lemma ChannelNameExact(name: string)
    ensures ValidChannelName(name) <==>
      && |name| >= 2 && name[0] == '#'
      && (forall i | 0 <= i < |name| ::
            name[i] as int > 32 && name[i] as int != 127 && name[i] != ',' && name[i] != ':')
  {
    assert forall i | 0 <= i < |name| :: name[i] in name;
    assert forall x | x in name :: exists i | 0 <= i < |name| :: name[i] == x;
  }

  /** A nick is never a channel name, so a PRIVMSG target names one or the other. */
  lemma NamesDisjoint(name: string)
    ensures !(ValidNick(name) && ValidChannelName(name))
  {
    if ValidNick(name) {
      assert name[0] != '#';
    }
  }

  // ----- The life cycle of clients and channels ----------------------------------------------

  /** ServerState::addNewClient, with `c` the object that `new` returned. */
  function AddClient(s: State, fd: int, c: Client): State {
    if fd in s.byFd then s
    else s.(clients := s.clients[c := NEW_CLIENT], byFd := s.byFd[fd := c])
  }

  /** Every channel without `c`; the channels this leaves empty are gone. */
  function Purged(channels: map<string, ChanRec>, c: Client): map<string, ChanRec> {
    map n | n in channels && channels[n].Without(c).members != {} :: channels[n].Without(c)
  }

  /** The nick map without `nick`, unless that is no nick at all. */
  function Freed(byNick: map<string, Client>, nick: string): map<string, Client> {
    if nick == "" then byNick else byNick - {nick}
  }

  /** ServerState::removeClient as one equation. */
  function RemoveClient(s: State, fd: int): State {
    if fd !in s.byFd then s
    else
      var c := s.byFd[fd];
      State(s.password, s.clients - {c}, s.byFd - {fd}, Freed(s.byNick, s.Rec(c).nickname), Purged(s.channels, c))
  }

  /** ServerState::updateNickname: the new state and whether the nick is now the client's. */
  function UpdateNickname(s: State, c: Client, nick: string): (State, bool) {
    var oldNick := s.Rec(c).nickname;
    if nick == "" then (s, false)
    else if nick == oldNick then (s, true)
    else if nick in s.byNick then (s, false)
    else (s.WithRec(c, s.Rec(c).(nickname := nick)).(byNick := Freed(s.byNick[nick := c], oldNick)), true)
  }

  // ----- The invariant ----------------------------------------------------------------------

  /** The fd map and the set of live clients are two views of one bijection. */
  ghost predicate FdsAgree(s: State) {
    && (forall fd | fd in s.byFd :: s.byFd[fd].socketFd == fd && s.byFd[fd] in s.clients)
    && (forall c | c in s.clients :: c.socketFd in s.byFd && s.byFd[c.socketFd] == c)
    && Apart(s.clients.Keys)
  }

  /** The nick map is a bijection with the live clients that have a nick. */
  ghost predicate NicksAgree(s: State) {
    && (forall n | n in s.byNick :: s.byNick[n] in s.clients && s.clients[s.byNick[n]].nickname == n && ValidNick(n))
    && (forall c | c in s.clients && s.clients[c].nickname != "" ::
          s.clients[c].nickname in s.byNick && s.byNick[s.clients[c].nickname] == c)
  }

  /** A client is registered exactly when it has handed in everything. */
  ghost predicate RegistrationAgrees(s: State) {
    forall c | c in s.clients :: s.clients[c].registered <==> s.clients[c].Complete()
  }

  predicate ModesOk(m: ModesRec) {
    && (!m.channelProtected ==> m.channelPass == "")
    && (m.memberLimited ==> m.maxMember > 0)
  }

  ghost predicate ChannelOk(s: State, n: string, ch: ChanRec) {
    && ch.name == n && ValidChannelName(n)
    && ch.members != {}
    && ch.operators <= ch.members <= s.clients.Keys
    && ch.invited <= s.clients.Keys
    && (forall c | c in ch.members :: s.Rec(c).registered)
    && ModesOk(ch.modes)
  }

  ghost predicate ChannelsAgree(s: State) {
    forall n | n in s.channels :: ChannelOk(s, n, s.channels[n])
  }

  ghost predicate Inv(s: State) {
    FdsAgree(s) && NicksAgree(s) && RegistrationAgrees(s) && ChannelsAgree(s)
  }

  lemma NewServerInv(password: string)
    ensures Inv(NewServer(password))
  {
  }

  /** The object `new` returns for a connection: not alive yet, at an address of its own. */
  ghost predicate FreshObject(s: State, fd: int, c: Client) {
    c !in s.clients && c.socketFd == fd && Apart(s.clients.Keys + {c})
  }

  lemma AddClientInv(s: State, fd: int, c: Client)
    requires Inv(s) && FreshObject(s, fd, c)
    ensures Inv(AddClient(s, fd, c))
  {
    var t := AddClient(s, fd, c);
    if fd !in s.byFd {
      assert t.clients.Keys == s.clients.Keys + {c};
      assert FdsAgree(t);
      ChannelsKept(s, t);
    }
  }

  lemma RemoveClientInv(s: State, fd: int)
    requires Inv(s)
    ensures Inv(RemoveClient(s, fd))
  {
    if fd in s.byFd {
      var c, t := s.byFd[fd], RemoveClient(s, fd);
      assert t.clients.Keys == s.clients.Keys - {c};
      forall n | n in t.channels ensures ChannelOk(t, n, t.channels[n]) {
        assert ChannelOk(s, n, s.channels[n]);
      }
    }
  }

  /** Nothing of a client is left behind, and nothing else is touched. */
  lemma RemoveClientExact(s: State, fd: int)
    requires Inv(s) && fd in s.byFd
    ensures var c, t := s.byFd[fd], RemoveClient(s, fd);
      && t.clients.Keys == s.clients.Keys - {c}
      && t.byFd.Keys == s.byFd.Keys - {fd}
      && (forall d | d in t.clients :: t.clients[d] == s.clients[d])
      && (forall nick | nick in s.byNick && s.byNick[nick] != c :: nick in t.byNick && t.byNick[nick] == s.byNick[nick])
      && (forall nick | nick in t.byNick :: t.byNick[nick] != c)
      && (forall n | n in s.channels && s.channels[n].members != {c} ::
            n in t.channels && t.channels[n] == s.channels[n].Without(c))
      && (forall n | n in t.channels :: n in s.channels && s.channels[n].members != {c})
  {
    var c, t := s.byFd[fd], RemoveClient(s, fd);
    forall n | n in s.channels
      ensures s.channels[n].members != {c} <==> s.channels[n].Without(c).members != {}
    {
      assert ChannelOk(s, n, s.channels[n]);
      var d :| d in s.channels[n].members;
    }
  }

  /** An fd that is used again starts with nothing, even when the object's address is used again too. */
  lemma ReusedFdStartsClean(s: State, fd: int, c: Client)
    requires Inv(s) && fd in s.byFd && FreshObject(RemoveClient(s, fd), fd, c)
    ensures var t := AddClient(RemoveClient(s, fd), fd, c);
      && fd in t.byFd && t.byFd[fd] == c && t.Rec(c) == ClientRec("", "", "", false, false)
      && (forall nick | nick in t.byNick :: t.byNick[nick] != c)
      && (forall n | n in t.channels ::
            c !in t.channels[n].members && c !in t.channels[n].operators && c !in t.channels[n].invited)
  {
    var r := RemoveClient(s, fd);
    RemoveClientInv(s, fd);
    forall n | n in r.channels
      ensures c !in r.channels[n].members && c !in r.channels[n].operators && c !in r.channels[n].invited
    {
      assert ChannelOk(r, n, r.channels[n]);
    }
  }

  lemma UpdateNicknameFds(s: State, c: Client, nick: string)
    requires FdsAgree(s) && c in s.clients
    ensures var t := UpdateNickname(s, c, nick).0;
      FdsAgree(t) && t.clients.Keys == s.clients.Keys && t.channels == s.channels
  {
    var t := UpdateNickname(s, c, nick).0;
    assert t.clients.Keys == s.clients.Keys;
  }

  lemma UpdateNicknameNicks(s: State, c: Client, nick: string)
    requires NicksAgree(s) && c in s.clients && ValidNick(nick)
    ensures NicksAgree(UpdateNickname(s, c, nick).0)
  {
    assert !ValidNick("");
    hide ValidNick;
    var t, was := UpdateNickname(s, c, nick).0, s.clients[c].nickname;
    if UpdateNickname(s, c, nick).1 && nick != was {
      forall n | n in t.byNick
        ensures t.byNick[n] in t.clients && t.clients[t.byNick[n]].nickname == n && ValidNick(n)
      {
        assert n == nick || (n in s.byNick && t.byNick[n] == s.byNick[n]);
      }
      forall d | d in t.clients && t.clients[d].nickname != ""
        ensures t.clients[d].nickname in t.byNick && t.byNick[t.clients[d].nickname] == d
      {
        assert d != c ==> t.clients[d] == s.clients[d];
      }
    }
  }

  lemma UpdateNicknameInv(s: State, c: Client, nick: string)
    requires FdsAgree(s) && NicksAgree(s) && c in s.clients && ValidNick(nick)
    ensures var t := UpdateNickname(s, c, nick).0;
      FdsAgree(t) && NicksAgree(t) && t.clients.Keys == s.clients.Keys && t.channels == s.channels
  {
    hide FdsAgree, NicksAgree, ValidNick, UpdateNickname;
    UpdateNicknameFds(s, c, nick);
    UpdateNicknameNicks(s, c, nick);
  }

  /** Channels stay in order when no record is dropped and nobody loses the registration. */
  lemma ChannelsKept(s: State, t: State)
    requires ChannelsAgree(s) && t.channels == s.channels && s.clients.Keys <= t.clients.Keys
    requires forall c | c in s.clients && s.clients[c].registered :: t.clients[c].registered
    ensures ChannelsAgree(t)
  {
    forall n | n in t.channels ensures ChannelOk(t, n, t.channels[n]) {
      assert ChannelOk(s, n, s.channels[n]);
    }
  }

  // ----- Telling clients ----------------------------------------------------------------------

  /** A numeric addressed to the client itself. */
  function Tell(s: State, c: Client, num: nat, msg: string): seq<Reply> {
    [Reply(c.socketFd, Numeric(TargetName(s.Rec(c).nickname), num, msg))]
  }

  function Prefix(s: State, c: Client): string {
    BuildPrefix(s.Rec(c).nickname, s.Rec(c).username)
  }

  /** CommandDispatcher::_broadcastToChannel: one copy per element of the set, in its order. */
  ghost function Deliver(to: set<Client>, except: Client?, body: Body): seq<Reply> {
    if to == {} then []
    else
      var c := First(to);
      (if c == except then [] else [Reply(c.socketFd, body)]) + Deliver(to - {c}, except, body)
  }

  /** What one connection gets out of a list of replies, in order. */
  function ForFd(r: seq<Reply>, fd: int): seq<Body> {
    if r == [] then []
    else (if r[0].fd == fd then [r[0].body] else []) + ForFd(r[1..], fd)
  }

  lemma {:induction false} ForFdConcat(a: seq<Reply>, b: seq<Reply>, fd: int)
    ensures ForFd(a + b, fd) == ForFd(a, fd) + ForFd(b, fd)
  {
    if a == [] {
      assert a + b == b;
    } else {
      ForFdConcat(a[1..], b, fd);
      assert (a + b)[1..] == a[1..] + b && (a + b)[0] == a[0];
      var head := if a[0].fd == fd then [a[0].body] else [];
      assert head + (ForFd(a[1..], fd) + ForFd(b, fd)) == head + ForFd(a[1..], fd) + ForFd(b, fd);
    }
  }

  /** A broadcast reaches every member but the excluded one exactly once, and nobody else. */
  lemma {:induction false} DeliverExact(to: set<Client>, except: Client?, body: Body, fd: int)
    requires forall c, d | c in to && d in to && c.socketFd == d.socketFd :: c == d
    ensures ForFd(Deliver(to, except, body), fd)
         == if exists c | c in to :: c != except && c.socketFd == fd then [body] else []
  {
    if to == {} {
    } else {
      var c := First(to);
      var rest := Deliver(to - {c}, except, body);
      DeliverExact(to - {c}, except, body, fd);
      if c != except {
        assert Deliver(to, except, body) == [Reply(c.socketFd, body)] + rest;
        ForFdConcat([Reply(c.socketFd, body)], rest, fd);
        assert ForFd([Reply(c.socketFd, body)], fd) == if c.socketFd == fd then [body] else [];
      } else {
        assert Deliver(to, except, body) == rest;
      }
    }
  }

  lemma {:induction false} DeliverAll(to: set<Client>, except: Client?, body: Body)
    ensures forall r | r in Deliver(to, except, body) ::
      r.body == body && exists c | c in to :: c != except && c.socketFd == r.fd
  {
    if to == {} {
    } else {
      DeliverAll(to - {First(to)}, except, body);
    }
  }
}
