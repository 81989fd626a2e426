// src/Client.cpp: one connection's registration record.
module Clients {

  /** The fields of a Client, as a value. */
  datatype ClientRec = ClientRec(
    username: string,
    nickname: string,
    realname: string,
    passAccepted: bool,
    registered: bool
  ) {
    /** Everything a client has to hand in before it is registered. */
    predicate Complete() {
      passAccepted && username != "" && nickname != ""
    }
  }

  const NEW_CLIENT := ClientRec("", "", "", false, false)

  /** `addr` stands for the address of the object: std::set<Client*> iterates in its order. */
  class Client {
    const socketFd: int
    const addr: nat
    var username: string
    var nickname: string
    var realname: string
    var passAccepted: bool
    var registered: bool

    ghost function Rec(): ClientRec
      reads this
    {
      ClientRec(username, nickname, realname, passAccepted, registered)
    }

    constructor (socketFd: int, addr: nat)
      ensures this.socketFd == socketFd && this.addr == addr
      ensures Rec() == NEW_CLIENT
    {
      this.socketFd, this.addr := socketFd, addr;
      username, nickname, realname := "", "", "";
      passAccepted, registered := false, false;
    }

    method AcceptPassword()
      modifies this
      ensures Rec() == old(Rec()).(passAccepted := true)
    {
      passAccepted := true;
    }

    method SetUserName(name: string)
      modifies this
      ensures Rec() == old(Rec()).(username := name)
    {
      username := name;
    }

    method SetRealName(name: string)
      modifies this
      ensures Rec() == old(Rec()).(realname := name)
    {
      realname := name;
    }

    method SetNickByServerState(name: string)
      modifies this
      ensures Rec() == old(Rec()).(nickname := name)
    {
      nickname := name;
    }

    /** Registers the client when its record is complete; true exactly when it did so now. */
    method TryRegister() returns (done: bool)
      modifies this
      ensures done <==> !old(Rec()).registered && old(Rec()).Complete()
      ensures Rec() == if done then old(Rec()).(registered := true) else old(Rec())
    {
      if registered {
        return false;
      }
      if !passAccepted || username == "" || nickname == "" {
        return false;
      }
      registered := true;
      return true;
    }
  }

  // ----- The order of a std::set<Client*> ---------------------------------------------------

  predicate IsFirst(c: Client, s: set<Client>) {
    c in s && forall d | d in s :: c.addr <= d.addr
  }

  lemma {:induction false} FirstExists(s: set<Client>)
    requires s != {}
    ensures exists c :: IsFirst(c, s)
  {
    var d :| d in s;
    if s == {d} {
      assert IsFirst(d, s);
    } else {
      FirstExists(s - {d});
      var c :| IsFirst(c, s - {d});
      assert IsFirst(if c.addr <= d.addr then c else d, s);
    }
  }

  /** The element an iteration over the set visits first. */
  ghost function First(s: set<Client>): (c: Client)
    requires s != {}
    ensures IsFirst(c, s)
  {
    FirstExists(s);
    var c :| IsFirst(c, s);
    c
  }

  /** The elements of the set in the order an iteration visits them. */
  ghost function Order(s: set<Client>): seq<Client> {
    if s == {} then [] else [First(s)] + Order(s - {First(s)})
  }

  /** An iteration visits every element exactly once. */
  lemma {:induction false} OrderExact(s: set<Client>)
    ensures |Order(s)| == |s|
    ensures forall c | c in s :: c in Order(s)
    ensures forall i | 0 <= i < |Order(s)| :: Order(s)[i] in s
    ensures forall i, j | 0 <= i < j < |Order(s)| :: Order(s)[i] != Order(s)[j]
  {
    if s == {} {
    } else {
      OrderExact(s - {First(s)});
      var rest := Order(s - {First(s)});
      forall i | 0 <= i < |Order(s)| ensures Order(s)[i] in s && (i > 0 ==> Order(s)[i] != First(s)) {
        if i > 0 { assert Order(s)[i] == rest[i - 1]; }
      }
      forall i, j | 0 <= i < j < |Order(s)| ensures Order(s)[i] != Order(s)[j] {
        if i > 0 { assert Order(s)[i] == rest[i - 1] && Order(s)[j] == rest[j - 1]; }
      }
    }
  }

  /** Two objects that are alive at once have different addresses. */
  ghost predicate Apart(s: set<Client>) {
    forall c, d | c in s && d in s && c.addr == d.addr :: c == d
  }
}
