// src/ServerState.cpp on the heap: the three maps and the objects they share.
module ServerStates {
  import opened Clients
  import opened Channels
  import opened Model

  lemma ValuesAfterInsert<K, V>(m: map<K, V>, k: K, v: V)
    requires k !in m
    ensures m[k := v].Values == m.Values + {v}
  {
    var t := m[k := v];
    assert t[k] == v;
    forall x | x in m.Values ensures x in t.Values {
      var j :| j in m && m[j] == x;
      assert t[j] == x;
    }
  }

  lemma ValuesAfterRemove<K, V>(m: map<K, V>, k: K)
    requires k in m && forall i, j | i in m && j in m && m[i] == m[j] :: i == j
    ensures (m - {k}).Values == m.Values - {m[k]}
  {
    var t := m - {k};
    forall x | x in m.Values && x != m[k] ensures x in t.Values {
      var j :| j in m && m[j] == x;
      assert t[j] == x;
    }
    forall x | x in t.Values ensures x in m.Values && x != m[k] {
      var j :| j in t && t[j] == x;
      assert m[j] == x;
    }
  }

  /** What the handlers need of the invariant, said of the value. */
  ghost predicate TidyState(s: State) {
    && (forall fd | fd in s.byFd :: s.byFd[fd].socketFd == fd)
    && Apart(s.byFd.Values)
    && (forall nick | nick in s.byNick :: s.byNick[nick] in s.byFd.Values)
    && (forall n | n in s.channels :: s.channels[n].members <= s.byFd.Values)
  }

  class ServerState {
    const password: string
    var clientsByFd: map<int, Client>
    var clientsByNick: map<string, Client>
    var channels: map<string, Channel>

    /** Every object the state owns. */
    ghost function Repr(): set<object>
      reads this
    {
      {this} + clientsByFd.Values + channels.Values + ModeObjects()
    }

    ghost function ModeObjects(): set<ChannelModes>
      reads this
    {
      set ch | ch in channels.Values :: ch.modes
    }

    /** The state as a value. */
    ghost function View(): State
      reads this, Repr()
    {
      State(password,
        map c | c in clientsByFd.Values :: c.Rec(),
        clientsByFd, clientsByNick,
        map n | n in channels :: channels[n].Rec())
    }

    /** No two channels are the same object or share their modes. */
    ghost predicate Shape()
      reads this
    {
      && (forall n | n in channels :: channels[n].name == n)
      && (forall n, m | n in channels && m in channels && channels[n].modes == channels[m].modes :: n == m)
    }

    ghost predicate Valid()
      reads this, Repr()
    {
      Shape() && Inv(View())
    }

    /** What the handlers need of the invariant: every reference leads to a live client, under its
        own fd and at an address of its own. */
    ghost predicate Tidy()
      reads this, Repr()
    {
      && Shape()
      && (forall fd | fd in clientsByFd :: clientsByFd[fd].socketFd == fd)
      && Apart(clientsByFd.Values)
      && (forall nick | nick in clientsByNick :: clientsByNick[nick] in clientsByFd.Values)
      && (forall n | n in channels :: channels[n].members <= clientsByFd.Values)
    }

    lemma ValidIsTidy()
      requires Valid()
      ensures Tidy()
    {
      assert View().clients.Keys == clientsByFd.Values;
      forall n | n in channels ensures channels[n].members <= clientsByFd.Values {
        assert ChannelOk(View(), n, View().channels[n]);
      }
    }

    /** A state with the same clients and nicks is tidy when its channels have only live members. */
    lemma StaysTidy(s: State)
      requires Shape() && TidyState(s) && View().byFd == s.byFd && View().byNick == s.byNick
      requires forall n | n in View().channels :: View().channels[n].members <= s.byFd.Values
      ensures Tidy()
    {
      forall n | n in channels ensures channels[n].members <= clientsByFd.Values {
        assert View().channels[n].members <= s.byFd.Values;
      }
    }

    lemma TidyView()
      requires Tidy()
      ensures TidyState(View())
    {
    }

    constructor (password: string)
      ensures Valid() && fresh(Repr())
      ensures View() == NewServer(password)
    {
      this.password := password;
      clientsByFd, clientsByNick, channels := map[], map[], map[];
    }

    // ----- Frames --------------------------------------------------------------------------

    /** Nothing has changed. */
    twostate lemma NothingChanged()
      requires unchanged(this)
      requires forall d | d in clientsByFd.Values :: unchanged(d)
      requires forall ch | ch in channels.Values :: unchanged(ch) && unchanged(ch.modes)
      ensures View() == old(View())
    {
    }

    /** Only the record of `c` has changed. */
    twostate lemma ClientChanged(c: Client)
      requires unchanged(this) && c in clientsByFd.Values
      requires forall d | d in clientsByFd.Values && d != c :: unchanged(d)
      requires forall ch | ch in channels.Values :: unchanged(ch) && unchanged(ch.modes)
      ensures View() == old(View()).WithRec(c, c.Rec())
    {
    }

    /** Only the channel `n` has changed. */
    twostate lemma ChannelChanged(n: string)
      requires unchanged(this) && n in channels
      requires forall d | d in clientsByFd.Values :: unchanged(d)
      requires forall m | m in channels && m != n :: unchanged(channels[m]) && unchanged(channels[m].modes)
      ensures View() == old(View()).WithChannel(n, channels[n].Rec())
    {
    }

    /** A new channel has been put under `n`. */
    twostate lemma ChannelAdded(n: string, new ch: Channel)
      requires unchanged(`clientsByFd) && unchanged(`clientsByNick)
      requires n !in old(channels) && channels == old(channels)[n := ch]
      requires forall d | d in clientsByFd.Values :: unchanged(d)
      requires forall m | m in old(channels) :: unchanged(old(channels)[m]) && unchanged(old(channels)[m].modes)
      ensures View() == old(View()).WithChannel(n, ch.Rec())
    {
    }

    /** The channel `n` has been taken out of the map. */
    twostate lemma ChannelDropped(n: string)
      requires unchanged(`clientsByFd) && unchanged(`clientsByNick)
      requires n in old(channels) && channels == old(channels) - {n} && old(channels)[n].members == {}
      requires forall d | d in clientsByFd.Values :: unchanged(d)
      requires forall m | m in old(channels) :: unchanged(old(channels)[m]) && unchanged(old(channels)[m].modes)
      ensures View() == old(View()).(channels := old(View()).channels - {n})
    {
    }

    /** A new client has been added under `fd`. */
    twostate lemma ClientAdded(fd: int, new c: Client)
      requires fd !in old(clientsByFd) && c !in old(clientsByFd).Values
      requires clientsByFd == old(clientsByFd)[fd := c] && unchanged(`clientsByNick) && unchanged(`channels)
      requires forall d | d in old(clientsByFd).Values :: unchanged(d)
      requires forall ch | ch in channels.Values :: unchanged(ch) && unchanged(ch.modes)
      requires c.Rec() == NEW_CLIENT
      ensures View() == AddClient(old(View()), fd, c)
    {
      ValuesAfterInsert(old(clientsByFd), fd, c);
    }

    /** The nick map and the record of `c` have changed. */
    twostate lemma NickChanged(c: Client)
      requires unchanged(`clientsByFd) && unchanged(`channels) && c in clientsByFd.Values
      requires forall d | d in clientsByFd.Values && d != c :: unchanged(d)
      requires forall ch | ch in channels.Values :: unchanged(ch) && unchanged(ch.modes)
      ensures View() == old(View()).WithRec(c, c.Rec()).(byNick := clientsByNick)
    {
    }

    /** The same clients under the same fds, and the same channel objects. */
    twostate predicate SameObjects()
      reads this
    {
      clientsByFd == old(clientsByFd) && channels == old(channels)
    }

    twostate lemma SameObjectsKept()
      requires old(Shape()) && SameObjects()
      ensures Shape() && Repr() == old(Repr())
    {
    }

    /** The same clients as before; every channel was there before or is new. */
    twostate predicate Grown()
      reads this
    {
      && clientsByFd == old(clientsByFd)
      && forall n | n in channels ::
           (n in old(channels) && channels[n] == old(channels)[n]) || (fresh(channels[n]) && fresh(channels[n].modes))
    }

    twostate lemma GrownRepr()
      requires Grown()
      ensures fresh(Repr() - old(Repr()))
    {
    }

    // ----- Lookups -------------------------------------------------------------------------

    function GetClientByFd(fd: int): (client: Client?)
      reads this
      ensures client != null <==> fd in clientsByFd
      ensures client != null ==> client in clientsByFd.Values
    {
      if fd in clientsByFd then clientsByFd[fd] else null
    }

    function GetClientByNick(nick: string): (client: Client?)
      reads this
      ensures client != null <==> nick in clientsByNick
    {
      if nick in clientsByNick then clientsByNick[nick] else null
    }

    predicate IsNicknameExist(nick: string)
      reads this
    {
      nick in clientsByNick
    }

    function FindChannel(name: string): (channel: Channel?)
      reads this
      ensures channel != null <==> name in channels
      ensures channel != null ==> channel in channels.Values
    {
      if name in channels then channels[name] else null
    }

    predicate IsCorrectPassword(pass: string) {
      pass == password
    }

    // ----- Clients ---------------------------------------------------------------------------

    /** `addr` is where the new object is placed: away from every object that is alive. */
    method AddNewClient(fd: int, addr: nat) returns (added: bool)
      requires Valid()
      requires forall c | c in clientsByFd.Values :: c.addr != addr
      modifies this`clientsByFd
      ensures Valid() && channels == old(channels) && clientsByNick == old(clientsByNick)
      ensures added <==> fd !in old(clientsByFd)
      ensures !added ==> View() == old(View()) && clientsByFd == old(clientsByFd)
      ensures added ==> fd in clientsByFd && fresh(clientsByFd[fd])
      ensures added ==> clientsByFd == old(clientsByFd)[fd := clientsByFd[fd]]
      ensures added ==> FreshObject(old(View()), fd, clientsByFd[fd])
      ensures added ==> View() == AddClient(old(View()), fd, clientsByFd[fd])
    {
      if fd in clientsByFd {
        return false;
      }
      var newClient := new Client(fd, addr);
      clientsByFd := clientsByFd[fd := newClient];
      ClientAdded(fd, newClient);
      AddClientInv(old(View()), fd, newClient);
      return true;
    }

    method UpdateNickname(client: Client, nick: string) returns (done: bool)
      requires Shape() && client in clientsByFd.Values
      modifies this`clientsByNick, client
      ensures Shape()
      ensures (View(), done) == Model.UpdateNickname(old(View()), client, nick)
    {
      if nick == "" {
        return false;
      }
      var oldNick := client.nickname;
      assert View().Rec(client) == client.Rec();
      if nick == oldNick {
        return true;
      }
      if IsNicknameExist(nick) {
        return false;
      }
      clientsByNick := clientsByNick[nick := client];
      if oldNick != "" {
        clientsByNick := clientsByNick - {oldNick};
      }
      client.SetNickByServerState(nick);
      NickChanged(client);
      return true;
    }

    // ----- Channels ----------------------------------------------------------------------------

    method EnsureChannel(name: string) returns (channel: Channel)
      requires Shape()
      modifies this`channels
      ensures Shape() && name in channels && channels[name] == channel
      ensures clientsByFd == old(clientsByFd) && clientsByNick == old(clientsByNick)
      ensures name in old(channels) ==> channels == old(channels)
      ensures name !in old(channels) ==>
        && fresh(channel) && fresh(channel.modes)
        && channels == old(channels)[name := channel] && channel.Rec() == EmptyChannel(name)
    {
      if name in channels {
        return channels[name];
      }
      channel := new Channel(name);
      channels := channels[name := channel];
    }

    method RemoveChannelIfEmpty(name: string) returns (removed: bool)
      requires Shape()
      modifies this`channels
      ensures Shape() && clientsByFd == old(clientsByFd) && clientsByNick == old(clientsByNick)
      ensures removed <==> name in old(channels) && old(channels)[name].members == {}
      ensures channels == if removed then old(channels) - {name} else old(channels)
    {
      if name !in channels {
        return false;
      }
      var target := channels[name];
      if |target.members| != 0 {
        return false;
      }
      channels := channels - {name};
      return true;
    }

    // ----- Removing a client ---------------------------------------------------------------------

    /** One turn of the first pass of removeClient. */
    method LeaveOne(channel: Channel, target: Client) returns (empty: bool)
      modifies channel
      ensures channel.LeftBy(target)
      ensures empty <==> channel.members == {}
    {
      var removed := channel.RemoveClient(target);
      empty := |channel.members| == 0;
    }

    /** The first pass of removeClient: takes the client out of every channel and lists the channels
        this leaves empty. */
    method LeaveAll(target: Client) returns (removeList: seq<string>)
      requires Shape()
      modifies channels.Values
      ensures forall n | n in channels ::
        && channels[n].topic == old(channels[n].topic)
        && channels[n].members == old(channels[n].members) - {target}
        && channels[n].operators == old(channels[n].operators) - {target}
        && channels[n].invited == old(channels[n].invited) - {target}
      ensures forall n | n in channels :: n in removeList <==> channels[n].members == {}
    {
      removeList := [];
      var rest := channels.Keys;
      while rest != {}
        invariant rest <= channels.Keys
        invariant forall n | n in rest :: unchanged(channels[n])
        invariant forall n | n in channels && n !in rest :: channels[n].LeftBy(target)
        invariant forall n | n in removeList :: n in channels && n !in rest
        invariant forall n | n in channels && n !in rest :: n in removeList <==> channels[n].members == {}
      {
        var n :| n in rest;
        var empty := LeaveOne(channels[n], target);
        if empty {
          removeList := removeList + [channels[n].name];
        }
        rest := rest - {n};
      }
    }

    /** The second pass: removes the listed channels. */
    method RemoveListed(removeList: seq<string>)
      requires Shape()
      requires forall n | n in channels :: n in removeList <==> channels[n].members == {}
      modifies this`channels
      ensures Shape()
      ensures forall n | n in channels :: n in old(channels) && channels[n] == old(channels)[n]
      ensures forall n | n in old(channels) :: n in channels <==> old(channels)[n].members != {}
    {
      ghost var was := channels;
      for i := 0 to |removeList|
        invariant Shape()
        invariant forall n | n in channels :: n in was && channels[n] == was[n]
        invariant forall n | n in was && n !in channels :: was[n].members == {}
        invariant forall n | n in removeList[..i] :: n !in channels
      {
        ghost var before := channels;
        var removed := RemoveChannelIfEmpty(removeList[i]);
        assert removeList[..i + 1] == removeList[..i] + [removeList[i]];
        assert removeList[i] !in channels by {
          assert removeList[i] in removeList;
        }
      }
      assert removeList[..|removeList|] == removeList;
    }

    /** The end of removeClient: the nick and the fd are free again. */
    method Forget(fd: int, target: Client)
      modifies this`clientsByFd, this`clientsByNick
      ensures clientsByNick == Freed(old(clientsByNick), target.nickname)
      ensures clientsByFd == old(clientsByFd) - {fd}
    {
      if target.nickname != "" {
        clientsByNick := clientsByNick - {target.nickname};
      }
      clientsByFd := clientsByFd - {fd};
    }

    /** The two passes of removeClient, and the maps. */
    method Sweep(fd: int, target: Client)
      requires Shape()
      modifies this, channels.Values
      ensures clientsByFd == old(clientsByFd) - {fd}
      ensures clientsByNick == Freed(old(clientsByNick), target.nickname)
      ensures forall n | n in old(channels) ::
        && old(channels)[n].topic == old(channels[n].topic)
        && old(channels)[n].members == old(channels[n].members) - {target}
        && old(channels)[n].operators == old(channels[n].operators) - {target}
        && old(channels)[n].invited == old(channels[n].invited) - {target}
      ensures forall n | n in channels :: n in old(channels) && channels[n] == old(channels)[n]
      ensures forall n | n in old(channels) :: n in channels <==> old(channels)[n].members != {}
    {
      var removeList := LeaveAll(target);
      RemoveListed(removeList);
      Forget(fd, target);
    }

    method RemoveClient(fd: int) returns (removed: bool)
      requires Valid()
      modifies this, channels.Values
      ensures Valid() && Repr() <= old(Repr())
      ensures removed <==> fd in old(clientsByFd)
      ensures View() == Model.RemoveClient(old(View()), fd)
    {
      ValidIsTidy();
      hide Inv, Purged, Freed;
      if fd !in clientsByFd {
        return false;
      }
      var target := clientsByFd[fd];
      assert target.socketFd == fd;
      Sweep(fd, target);
      Removed(target);
      RemoveClientInv(old(View()), fd);
      return true;
    }

    /** What is left when `target` has left the channels, the empty channels and the maps. */
    twostate lemma Removed(target: Client)
      requires old(Valid()) && target in old(clientsByFd).Values
      requires clientsByFd == old(clientsByFd) - {target.socketFd}
      requires clientsByNick == Freed(old(clientsByNick), old(target.nickname))
      requires forall d | d in old(clientsByFd).Values :: unchanged(d)
      requires forall n | n in old(channels) ::
        && old(channels)[n].topic == old(channels[n].topic)
        && old(channels)[n].members == old(channels[n].members) - {target}
        && old(channels)[n].operators == old(channels[n].operators) - {target}
        && old(channels)[n].invited == old(channels[n].invited) - {target}
      requires forall n | n in old(channels) :: unchanged(old(channels)[n].modes)
      requires forall n | n in channels :: n in old(channels) && channels[n] == old(channels)[n]
      requires forall n | n in old(channels) :: n in channels <==> old(channels)[n].members != {}
      ensures View() == Model.RemoveClient(old(View()), target.socketFd)
      ensures Shape() && Repr() <= old(Repr())
    {
      var was, fd := old(View()), target.socketFd;
      assert target in was.clients && was.byFd[fd] == target;
      RemovedClients(target);
      RemovedChannels(target);
    }

    twostate lemma RemovedClients(target: Client)
      requires old(Valid()) && target in old(clientsByFd).Values
      requires clientsByFd == old(clientsByFd) - {target.socketFd}
      requires forall d | d in old(clientsByFd).Values :: unchanged(d)
      ensures View().clients == old(View()).clients - {target}
      ensures clientsByFd.Values <= old(clientsByFd).Values
    {
      var was, fd := old(View()), target.socketFd;
      assert target in was.clients && was.byFd[fd] == target;
      assert forall i | i in was.byFd :: was.byFd[i].socketFd == i;
      ValuesAfterRemove(was.byFd, fd);
    }

    twostate lemma RemovedChannels(target: Client)
      requires forall n | n in old(channels) ::
        && old(channels)[n].topic == old(channels[n].topic)
        && old(channels)[n].members == old(channels[n].members) - {target}
        && old(channels)[n].operators == old(channels[n].operators) - {target}
        && old(channels)[n].invited == old(channels[n].invited) - {target}
      requires forall n | n in old(channels) :: unchanged(old(channels)[n].modes)
      requires forall n | n in channels :: n in old(channels) && channels[n] == old(channels)[n]
      requires forall n | n in old(channels) :: n in channels <==> old(channels)[n].members != {}
      ensures View().channels == Purged(old(View()).channels, target)
    {
      forall n | n in old(channels)
        ensures old(channels)[n].Rec() == old(channels[n].Rec()).Without(target)
      {
      }
    }
  }
}
