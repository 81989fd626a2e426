// src/Server.cpp: the buffers, the poll list and the state, one event of the poll loop at a time.
module Servers {
  import opened Text
  import opened Parser
  import opened Clients
  import opened Replies
  import opened Model
  import opened Commands
  import opened Answers
  import opened Delivery
  import opened Framing
  import opened Runs
  import opened Books
  import opened ServerStates
  import Dispatcher

  // ----- The poll list --------------------------------------------------------------------------

  /** A pollfd: POLLIN is always set, `pollOut` says whether POLLOUT is. */
  datatype PollFd = PollFd(fd: int, pollOut: bool)

  predicate Distinct(polls: seq<PollFd>) {
    forall i, j | 0 <= i < j < |polls| :: polls[i].fd != polls[j].fd
  }

  ghost predicate Polled(polls: seq<PollFd>, fd: int) {
    exists i | 0 <= i < |polls| :: polls[i].fd == fd
  }

  /** An entry for the listener or a connection, armed exactly when bytes wait for it. */
  predicate EntryOk(p: PollFd, serverFd: int, send: map<int, string>) {
    && (p.fd == serverFd || p.fd in send)
    && (p.pollOut <==> p.fd in send && send[p.fd] != "")
  }

  /** The listener and every connection once each, and POLLOUT armed exactly where bytes wait. */
  ghost predicate PollsAgree(polls: seq<PollFd>, serverFd: int, send: map<int, string>) {
    && serverFd !in send
    && Distinct(polls)
    && (forall i | 0 <= i < |polls| :: EntryOk(polls[i], serverFd, send))
    && Polled(polls, serverFd)
    && (forall fd | fd in send :: Polled(polls, fd))
  }

  /** The poll list with POLLOUT of the first entry for `fd` set or cleared. */
  function WithPollOut(polls: seq<PollFd>, fd: int, on: bool): (r: seq<PollFd>)
    ensures |r| == |polls|
  {
    if polls == [] then []
    else if polls[0].fd == fd then [polls[0].(pollOut := on)] + polls[1..]
    else [polls[0]] + WithPollOut(polls[1..], fd, on)
  }

  /** The entries stay where they are; where they are distinct, it is the only one for `fd` that is marked. */
  lemma {:induction false} PollOutAt(polls: seq<PollFd>, fd: int, on: bool, i: nat)
    requires i < |polls|
    ensures WithPollOut(polls, fd, on)[i].fd == polls[i].fd
    ensures Distinct(polls) ==>
      WithPollOut(polls, fd, on)[i] == if polls[i].fd == fd then polls[i].(pollOut := on) else polls[i]
  {
    if polls[0].fd != fd && i > 0 {
      PollOutAt(polls[1..], fd, on, i - 1);
    }
  }

  /** Where no entry before `i` is for `fd`, marking comes to the one at `i`. */
  lemma {:induction false} FirstMarked(polls: seq<PollFd>, fd: int, on: bool, i: nat)
    requires i <= |polls| && forall k | 0 <= k < i :: polls[k].fd != fd
    ensures i == |polls| ==> WithPollOut(polls, fd, on) == polls
    ensures i < |polls| && polls[i].fd == fd ==> WithPollOut(polls, fd, on) == polls[i := polls[i].(pollOut := on)]
  {
    if polls == [] {
    } else if i == 0 {
      assert polls[0 := polls[0].(pollOut := on)] == [polls[0].(pollOut := on)] + polls[1..];
    } else {
      FirstMarked(polls[1..], fd, on, i - 1);
      assert polls == [polls[0]] + polls[1..];
    }
  }

  /** What waits for a descriptor. */
  function Waiting(send: map<int, string>, fd: int): string {
    if fd in send then send[fd] else ""
  }

  lemma PollOutPolled(polls: seq<PollFd>, fd: int, on: bool, g: int)
    requires Polled(polls, g)
    ensures Polled(WithPollOut(polls, fd, on), g)
  {
    var i :| 0 <= i < |polls| && polls[i].fd == g;
    PollOutAt(polls, fd, on, i);
  }

  lemma PollOutAgrees(polls: seq<PollFd>, serverFd: int, send: map<int, string>, fd: int, text: string)
    requires PollsAgree(polls, serverFd, send) && fd in send
    ensures PollsAgree(WithPollOut(polls, fd, text != ""), serverFd, send[fd := text])
  {
    hide Polled, WithPollOut;
    var marked, after := WithPollOut(polls, fd, text != ""), send[fd := text];
    forall i | 0 <= i < |polls|
      ensures marked[i] == if polls[i].fd == fd then polls[i].(pollOut := text != "") else polls[i]
    {
      PollOutAt(polls, fd, text != "", i);
    }
    PollOutPolled(polls, fd, text != "", serverFd);
    forall g | g in after ensures Polled(marked, g) {
      PollOutPolled(polls, fd, text != "", g);
    }
    forall i | 0 <= i < |marked| ensures EntryOk(marked[i], serverFd, after) {
      assert EntryOk(polls[i], serverFd, send);
    }
  }

  /** Where the mark already is what it should be, marking changes nothing. */
  lemma StillArmed(polls: seq<PollFd>, serverFd: int, send: map<int, string>, fd: int)
    requires PollsAgree(polls, serverFd, send) && fd in send
    ensures WithPollOut(polls, fd, send[fd] != "") == polls
  {
    hide WithPollOut, Polled;
    forall i | 0 <= i < |polls| ensures WithPollOut(polls, fd, send[fd] != "")[i] == polls[i] {
      assert EntryOk(polls[i], serverFd, send);
      PollOutAt(polls, fd, send[fd] != "", i);
    }
  }

  lemma AddedPolled(polls: seq<PollFd>, p: PollFd, g: int)
    requires Polled(polls, g) || p.fd == g
    ensures Polled(polls + [p], g)
  {
    if p.fd == g {
      assert (polls + [p])[|polls|].fd == g;
    } else {
      var i :| 0 <= i < |polls| && polls[i].fd == g;
      assert (polls + [p])[i].fd == g;
    }
  }

  lemma AddedAgrees(polls: seq<PollFd>, serverFd: int, send: map<int, string>, fd: int)
    requires PollsAgree(polls, serverFd, send) && fd != serverFd && fd !in send
    ensures PollsAgree(polls + [PollFd(fd, false)], serverFd, send[fd := ""])
  {
    hide Polled;
    var p, after := PollFd(fd, false), send[fd := ""];
    AddedPolled(polls, p, serverFd);
    forall g | g in after ensures Polled(polls + [p], g) {
      AddedPolled(polls, p, g);
    }
    forall i | 0 <= i < |polls| ensures EntryOk(polls[i], serverFd, after) && polls[i].fd != fd {
      assert EntryOk(polls[i], serverFd, send);
    }
    assert EntryOk(p, serverFd, after);
  }

  lemma ErasedPolled(polls: seq<PollFd>, i: nat, g: int)
    requires i < |polls| && Polled(polls, g) && polls[i].fd != g
    ensures Polled(polls[..i] + polls[i + 1..], g)
  {
    var k :| 0 <= k < |polls| && polls[k].fd == g;
    assert (polls[..i] + polls[i + 1..])[if k < i then k else k - 1].fd == g;
  }

  lemma ErasedDistinct(polls: seq<PollFd>, i: nat)
    requires i < |polls| && Distinct(polls)
    ensures var erased := polls[..i] + polls[i + 1..];
      && Distinct(erased)
      && forall k | 0 <= k < |erased| ::
          erased[k].fd != polls[i].fd && erased[k] == if k < i then polls[k] else polls[k + 1]
  {
  }

  lemma ErasedAgrees(polls: seq<PollFd>, serverFd: int, send: map<int, string>, i: nat)
    requires PollsAgree(polls, serverFd, send) && i < |polls| && polls[i].fd != serverFd
    ensures PollsAgree(polls[..i] + polls[i + 1..], serverFd, send - {polls[i].fd})
  {
    hide Polled, Distinct;
    var erased, after := polls[..i] + polls[i + 1..], send - {polls[i].fd};
    ErasedDistinct(polls, i);
    ErasedPolled(polls, i, serverFd);
    forall g | g in after ensures Polled(erased, g) {
      ErasedPolled(polls, i, g);
    }
    forall k | 0 <= k < |erased| ensures EntryOk(erased[k], serverFd, after) {
      assert EntryOk(polls[k], serverFd, send) && (k + 1 < |polls| ==> EntryOk(polls[k + 1], serverFd, send));
    }
  }

  // ----- Queueing replies -------------------------------------------------------------------------

  lemma FlatMore(r: seq<Reply>, i: nat, g: int)
    requires i < |r|
    ensures Flat(LinesTo(r[..i + 1], g)) == Flat(LinesTo(r[..i], g)) + if r[i].fd == g then Wire(r[i].body) else ""
  {
    hide LinesTo, Flat, Wire;
    assert r[..i + 1] == r[..i] + [r[i]];
    LinesToConcat(r[..i], [r[i]], g);
    FlatConcat(LinesTo(r[..i], g), LinesTo([r[i]], g));
    OneReply(r[i], g);
  }

  lemma OneReply(x: Reply, g: int)
    ensures Flat(LinesTo([x], g)) == if x.fd == g then Wire(x.body) else ""
  {
    hide Wire;
    assert [x][1..] == [];
    if x.fd == g {
      var text := Wire(x.body);
      assert ForFd([x], g) == [x.body];
      assert [x.body][1..] == [] && [text][1..] == [];
      assert Lines([x.body]) == [text];
      assert text + "" == text;
    }
  }

  lemma QueuedMore(before: map<int, string>, now: map<int, string>, r: seq<Reply>, i: nat)
    requires i < |r| && r[i].fd in before && Queued(before, now, r[..i])
    ensures Queued(before, now[r[i].fd := now[r[i].fd] + Wire(r[i].body)], r[..i + 1])
  {
    hide LinesTo, Flat, Wire;
    var fd, text := r[i].fd, Wire(r[i].body);
    forall g | g in before ensures now[fd := now[fd] + text][g] == before[g] + Flat(LinesTo(r[..i + 1], g)) {
      FlatMore(r, i, g);
      var so := Flat(LinesTo(r[..i], g));
      assert before[g] + (so + text) == before[g] + so + text && so + "" == so;
    }
  }

  lemma QueuedNothing(before: map<int, string>, r: seq<Reply>)
    ensures Queued(before, before, r[..0])
  {
    forall g | g in before ensures before[g] + Flat(LinesTo(r[..0], g)) == before[g] {
      assert r[..0] == [];
      assert before[g] + "" == before[g];
    }
  }

  // ----- One line ------------------------------------------------------------------------------------

  /** The first half of processMessage: parse and dispatch. */
  method Answer(clientFd: int, message: string, state: ServerState) returns (replies: seq<Reply>)
    requires state.Valid()
    modifies state.Repr()
    ensures state.Valid() && fresh(state.Repr() - old(state.Repr()))
    ensures Out(state.View(), replies) == Next(old(state.View()), Line(clientFd, message))
  {
    hide Commands.Dispatch, Inv;
    var msg := Parse(message);
    state.NothingChanged();
    if msg.command == "" {
      return [];
    }
    replies := Dispatcher.Dispatch(clientFd, msg, state);
  }

  lemma ReplyTargets(s: State, fd: int, line: string, send: map<int, string>)
    requires Good(s) && Free(line, '\n') && send.Keys == s.byFd.Keys
    ensures forall x | x in Next(s, Line(fd, line)).r :: x.fd in send && Wire(x.body) != ""
    ensures Next(s, Line(fd, line)).s.byFd == s.byFd
  {
    ProcessGood(s, fd, line);
    forall x | x in Next(s, Line(fd, line)).r ensures x.fd in send && Wire(x.body) != "" {
      assert GoodReply(s, x);
      WireFramed(x.body);
    }
  }

  // ----- The tables ----------------------------------------------------------------------------------

  /** The tables of the server agree with each other, with the trace, and with the state `s`. */
  ghost predicate TablesOk(password: string, serverFd: int, trace: seq<Step>, s: State, conns: map<int, Conn>,
                           polls: seq<PollFd>, recv: map<int, string>, send: map<int, string>)
  {
    && Reached(password, trace, s)
    && conns.Keys == s.byFd.Keys
    && PollsAgree(polls, serverFd, send)
    && AllBooked(password, trace, conns, recv, send)
  }

  lemma TablesFacts(password: string, serverFd: int, trace: seq<Step>, s: State, conns: map<int, Conn>,
                    polls: seq<PollFd>, recv: map<int, string>, send: map<int, string>)
    requires TablesOk(password, serverFd, trace, s, conns, polls, recv, send)
    ensures Good(s) && PollsAgree(polls, serverFd, send) && Distinct(polls) && serverFd !in send
    ensures conns.Keys == s.byFd.Keys == recv.Keys == send.Keys
  {
    hide Reached, Booked, Good;
    ReachedGood(password, trace, s);
  }

  lemma EmptyTables(password: string, serverFd: int)
    ensures TablesOk(password, serverFd, [], NewServer(password), map[], [PollFd(serverFd, false)], map[], map[])
  {
    hide Next;
    assert [PollFd(serverFd, false)][0].fd == serverFd;
  }

  lemma LineTables(password: string, serverFd: int, trace: seq<Step>, s: State, conns: map<int, Conn>,
                   polls: seq<PollFd>, recv: map<int, string>, send: map<int, string>, fd: int, line: string,
                    rest: string,
                   polls': seq<PollFd>, send': map<int, string>)
    requires TablesOk(password, serverFd, trace, s, conns, polls, recv, send) && fd in conns && fd in recv
    requires Free(line, '\n') && CutLines(recv[fd]) == Cut([line] + CutLines(rest).lines, CutLines(rest).rest)
    requires Queued(send, send', Next(s, Line(fd, line)).r) && PollsAgree(polls', serverFd, send')
    ensures TablesOk(password, serverFd, trace + [Line(fd, line)], Next(s, Line(fd, line)).s, conns, polls',
                     recv[fd := rest], send')
  {
    hide Process, Reached, AllBooked, PollsAgree, Inv, TextsOk, CutLines, Queued;
    ReachedGood(password, trace, s);
    ProcessGood(s, fd, line);
    ReachedStep(password, trace, s, Line(fd, line));
    LineBooks(password, trace, s, conns, recv, send, fd, line, rest, send');
  }

  lemma ChunkTables(password: string, serverFd: int, trace: seq<Step>, s: State, conns: map<int, Conn>,
                    polls: seq<PollFd>, recv: map<int, string>, send: map<int, string>, fd: int, bytes: string)
    requires TablesOk(password, serverFd, trace, s, conns, polls, recv, send) && fd in conns && fd in recv
    ensures TablesOk(password, serverFd, trace, s, conns[fd := conns[fd].(received := conns[fd].received + bytes)],
                     polls,
                     recv[fd := recv[fd] + Filtered(bytes)], send)
  {
    hide Reached, AllBooked, PollsAgree, Filtered;
    ChunkBooks(password, trace, conns, recv, send, fd, bytes);
    assert conns[fd := conns[fd].(received := conns[fd].received + bytes)].Keys == conns.Keys;
  }

  lemma SendTables(password: string, serverFd: int, trace: seq<Step>, s: State, conns: map<int, Conn>,
                   polls: seq<PollFd>, recv: map<int, string>, send: map<int, string>, fd: int, n: nat)
    requires TablesOk(password, serverFd, trace, s, conns, polls, recv, send)
      && fd in conns && fd in send && n <= |send[fd]|
    ensures TablesOk(password, serverFd, trace, s, conns[fd := conns[fd].(sent := conns[fd].sent + send[fd][..n])],
                     WithPollOut(polls, fd, send[fd][n..] != ""), recv, send[fd := send[fd][n..]])
    ensures WithPollOut(polls, fd, send[fd] != "") == polls
  {
    hide Reached, AllBooked, PollsAgree;
    SendBooks(password, trace, conns, recv, send, fd, n);
    PollOutAgrees(polls, serverFd, send, fd, send[fd][n..]);
    StillArmed(polls, serverFd, send, fd);
    assert conns[fd := conns[fd].(sent := conns[fd].sent + send[fd][..n])].Keys == conns.Keys;
  }

  lemma AcceptTables(password: string, serverFd: int, trace: seq<Step>, s: State, conns: map<int, Conn>,
                     polls: seq<PollFd>, recv: map<int, string>, send: map<int, string>, fd: int, obj: Client)
    requires TablesOk(password, serverFd, trace, s, conns, polls, recv, send)
    requires fd !in s.byFd && fd != serverFd && FreshObject(s, fd, obj)
    ensures TablesOk(password, serverFd, trace + [Accept(fd, obj)], AddClient(s, fd, obj),
                     conns[fd := Conn(|trace| + 1, "", "")], polls + [PollFd(fd, false)],
                     recv[fd := ""], send[fd := ""])
  {
    hide Reached, Booked, PollsAgree;
    AcceptBooks(password, trace, s, conns, recv, send, fd, obj);
    ReachedStep(password, trace, s, Accept(fd, obj));
    AddedAgrees(polls, serverFd, send, fd);
  }

  lemma DisconnectTables(password: string, serverFd: int, trace: seq<Step>, s: State, conns: map<int, Conn>,
                         polls: seq<PollFd>, recv: map<int, string>, send: map<int, string>,
                          fd: int, polls': seq<PollFd>)
    requires TablesOk(password, serverFd, trace, s, conns, polls, recv, send)
    requires PollsAgree(polls', serverFd, send - {fd})
    ensures var trace' := if fd in conns then trace + [Disconnect(fd)] else trace;
      TablesOk(password, serverFd, trace', RemoveClient(s, fd), conns - {fd}, polls', recv - {fd}, send - {fd})
    ensures fd !in conns ==>
      conns - {fd} == conns && recv - {fd} == recv && send - {fd} == send && RemoveClient(s, fd) == s
  {
    hide Reached, Booked, PollsAgree;
    if fd in conns {
      DisconnectBooks(password, trace, s, conns, recv, send, fd);
      ReachedStep(password, trace, s, Disconnect(fd));
    } else {
      assert conns - {fd} == conns && recv - {fd} == recv && send - {fd} == send;
    }
  }

  /** The steps of a connection's lines. */
  function LineSteps(fd: int, lines: seq<string>): seq<Step> {
    if lines == [] then [] else [Line(fd, lines[0])] + LineSteps(fd, lines[1..])
  }

  lemma LineStepsNone(trace: seq<Step>, fd: int)
    ensures trace + LineSteps(fd, []) == trace
  {
  }

  lemma LineStepsHead(trace: seq<Step>, fd: int, line: string, later: seq<string>)
    ensures trace + LineSteps(fd, [line] + later) == trace + [Line(fd, line)] + LineSteps(fd, later)
  {
    assert ([line] + later)[1..] == later;
    assert trace + ([Line(fd, line)] + LineSteps(fd, later)) == trace + [Line(fd, line)] + LineSteps(fd, later);
  }

  class Server {
    const serverFd: int
    const state: ServerState
    var recvBuffers: map<int, string>
    var sendBuffers: map<int, string>
    var pollfds: seq<PollFd>

    /** What has happened so far, and the account of every live connection. */
    ghost var trace: seq<Step>
    ghost var conns: map<int, Conn>

    /** The tables agree with each other and with the state `s`, with `recv` for the receive buffers. */
    ghost predicate BooksOk(s: State, recv: map<int, string>)
      reads this
    {
      TablesOk(state.password, serverFd, trace, s, conns, pollfds, recv, sendBuffers)
    }

    lemma BookFacts(s: State, recv: map<int, string>)
      requires BooksOk(s, recv)
      ensures Good(s) && PollsAgree(pollfds, serverFd, sendBuffers) && Distinct(pollfds) && serverFd !in sendBuffers
      ensures conns.Keys == s.byFd.Keys == recv.Keys == sendBuffers.Keys
    {
      hide TablesOk, Good, PollsAgree;
      TablesFacts(state.password, serverFd, trace, s, conns, pollfds, recv, sendBuffers);
    }

    ghost predicate Agrees(recv: map<int, string>)
      reads this, state, state.Repr()
    {
      this !in state.Repr() && state.Shape() && BooksOk(state.View(), recv)
    }

    /** Between two events: everything agrees, and no receive buffer holds a complete line. */
    ghost predicate Valid()
      reads this, state, state.Repr()
    {
      Agrees(recvBuffers) && forall fd | fd in recvBuffers :: Free(recvBuffers[fd], '\n')
    }

    lemma Connected(clientFd: int)
      requires Valid() && clientFd in recvBuffers
      ensures clientFd != serverFd && clientFd in sendBuffers && clientFd in conns
    {
      hide BooksOk, Good, PollsAgree;
      BookFacts(state.View(), recvBuffers);
    }

    lemma SenderConnected(clientFd: int)
      requires Valid() && clientFd in sendBuffers
      ensures clientFd != serverFd && clientFd in conns
    {
      hide BooksOk, Good, PollsAgree;
      BookFacts(state.View(), recvBuffers);
    }

    lemma StateIsValid(recv: map<int, string>)
      requires Agrees(recv)
      ensures state.Valid() && Good(state.View())
    {
      hide BooksOk, PollsAgree, TextsOk;
      BookFacts(state.View(), recv);
    }

    /** setupSocket leaves only the listener in the poll list. */
    constructor (serverFd: int, password: string)
      ensures Valid() && fresh(state) && fresh(state.Repr())
      ensures state.password == password && this.serverFd == serverFd && trace == [] && conns == map[]
    {
      this.serverFd := serverFd;
      state := new ServerState(password);
      recvBuffers, sendBuffers := map[], map[];
      pollfds := [PollFd(serverFd, false)];
      trace, conns := [], map[];
      new;
      hide TablesOk, Inv;
      assert state.View() == NewServer(password) && this !in state.Repr();
      EmptyTables(password, serverFd);
    }

    // ----- The loops over the poll list --------------------------------------------------------

    /** The loops of queueResponse and sendData: set or clear POLLOUT of one connection. */
    method SetPollOut(clientFd: int, on: bool)
      modifies this`pollfds
      ensures pollfds == WithPollOut(old(pollfds), clientFd, on)
    {
      for i := 0 to |pollfds|
        invariant pollfds == old(pollfds)
        invariant forall k | 0 <= k < i :: pollfds[k].fd != clientFd
      {
        if pollfds[i].fd == clientFd {
          FirstMarked(pollfds, clientFd, on, i);
          pollfds := pollfds[i := pollfds[i].(pollOut := on)];
          return;
        }
      }
      FirstMarked(pollfds, clientFd, on, |pollfds|);
    }

    /** The loop of disconnectClient: take one connection out of the poll list. */
    method ErasePoll(clientFd: int)
      requires PollsAgree(pollfds, serverFd, sendBuffers) && clientFd != serverFd
      modifies this`pollfds
      ensures PollsAgree(pollfds, serverFd, sendBuffers - {clientFd})
      ensures clientFd !in sendBuffers ==> pollfds == old(pollfds)
    {
      for i := 0 to |pollfds|
        invariant pollfds == old(pollfds)
        invariant forall k | 0 <= k < i :: pollfds[k].fd != clientFd
      {
        if pollfds[i].fd == clientFd {
          assert EntryOk(pollfds[i], serverFd, sendBuffers);
          ErasedAgrees(pollfds, serverFd, sendBuffers, i);
          pollfds := pollfds[..i] + pollfds[i + 1..];
          return;
        }
      }
      assert !Polled(pollfds, clientFd);
      assert sendBuffers - {clientFd} == sendBuffers;
    }

    // ----- Output --------------------------------------------------------------------------------

    /** A descriptor without a buffer gets one, as with the index operator of a map. */
    method QueueResponse(clientFd: int, message: string)
      modifies this`sendBuffers, this`pollfds
      ensures sendBuffers == old(sendBuffers)[clientFd := Waiting(old(sendBuffers), clientFd) + message]
      ensures pollfds == WithPollOut(old(pollfds), clientFd, true)
      ensures old(PollsAgree(pollfds, serverFd, sendBuffers) && clientFd in sendBuffers) && message != "" ==>
        PollsAgree(pollfds, serverFd, sendBuffers)
    {
      hide WithPollOut, PollsAgree;
      if PollsAgree(pollfds, serverFd, sendBuffers) && clientFd in sendBuffers {
        PollOutAgrees(pollfds, serverFd, sendBuffers, clientFd, sendBuffers[clientFd] + message);
      }
      sendBuffers := sendBuffers[clientFd := Waiting(sendBuffers, clientFd) + message];
      SetPollOut(clientFd, true);
    }

    /** The loop of processMessage. */
    method QueueAll(replies: seq<Reply>)
      requires PollsAgree(pollfds, serverFd, sendBuffers)
      requires forall x | x in replies :: x.fd in sendBuffers && Wire(x.body) != ""
      modifies this`sendBuffers, this`pollfds
      ensures PollsAgree(pollfds, serverFd, sendBuffers)
      ensures Queued(old(sendBuffers), sendBuffers, replies)
    {
      hide Queued, PollsAgree, Wire;
      QueuedNothing(sendBuffers, replies);
      for i := 0 to |replies|
        invariant PollsAgree(pollfds, serverFd, sendBuffers)
        invariant sendBuffers.Keys == old(sendBuffers).Keys
        invariant Queued(old(sendBuffers), sendBuffers, replies[..i])
      {
        assert replies[i] in replies;
        QueuedMore(old(sendBuffers), sendBuffers, replies, i);
        QueueResponse(replies[i].fd, Wire(replies[i].body));
      }
      assert replies[..|replies|] == replies;
    }

    // ----- Input ---------------------------------------------------------------------------------

    /** processMessage, for a line that has just been taken out of the buffer `before`. */
    method ProcessMessage(clientFd: int, message: string, ghost before: string)
      requires clientFd in recvBuffers && Agrees(recvBuffers[clientFd := before]) && Free(message, '\n')
      requires var rest := CutLines(recvBuffers[clientFd]); CutLines(before) == Cut([message] + rest.lines, rest.rest)
      modifies this`sendBuffers, this`pollfds, this`trace, state.Repr()
      ensures Agrees(recvBuffers) && fresh(state.Repr() - old(state.Repr()))
      ensures trace == old(trace) + [Line(clientFd, message)]
    {
      hide Next, Inv, TextsOk, BooksOk, Queued;
      ghost var s, recv := state.View(), recvBuffers[clientFd := before];
      StateIsValid(recv);
      var replies := Answer(clientFd, message, state);
      label answered:
      QueueReplies(s, clientFd, message, before, replies);
      state.NothingChanged@answered();
    }

    /** The second half of processMessage: queue the replies. */
    method QueueReplies(ghost s: State, clientFd: int, message: string, ghost before: string, replies: seq<Reply>)
      requires clientFd in recvBuffers && BooksOk(s, recvBuffers[clientFd := before]) && Free(message, '\n')
      requires var rest := CutLines(recvBuffers[clientFd]); CutLines(before) == Cut([message] + rest.lines, rest.rest)
      requires replies == Next(s, Line(clientFd, message)).r
      modifies this`sendBuffers, this`pollfds, this`trace
      ensures BooksOk(Next(s, Line(clientFd, message)).s, recvBuffers)
      ensures trace == old(trace) + [Line(clientFd, message)]
    {
      hide Next, TablesOk, PollsAgree, Wire, Queued, CutLines, Good;
      ghost var recv, send, polls := recvBuffers[clientFd := before], sendBuffers, pollfds;
      BookFacts(s, recv);
      ReplyTargets(s, clientFd, message, sendBuffers);
      QueueAll(replies);
      LineTables(state.password, serverFd, trace, s, conns, polls, recv, send, clientFd, message, recvBuffers[clientFd],
                 pollfds, sendBuffers);
      assert recv[clientFd := recvBuffers[clientFd]] == recvBuffers;
      trace := trace + [Line(clientFd, message)];
    }

    /** What the line loop has still to do for `clientFd`, when `goal` is what was there to process and
        `pos` is where the next line ends. */
    ghost predicate LinesLeft(clientFd: int, goal: Cut, goalTrace: seq<Step>, goalRecv: map<int, string>, pos: int)
      reads this
    {
      && clientFd in recvBuffers && goalRecv == recvBuffers[clientFd := goal.rest]
      && trace + LineSteps(clientFd, CutLines(recvBuffers[clientFd]).lines) == goalTrace
      && CutLines(recvBuffers[clientFd]).rest == goal.rest
      && IsNewline(recvBuffers[clientFd], pos)
    }

    /** Take the first line out of the buffer. */
    method PopLine(clientFd: int, pos: nat) returns (line: string)
      requires Agrees(recvBuffers) && clientFd in recvBuffers && IsNewline(recvBuffers[clientFd], pos)
      modifies this`recvBuffers
      ensures clientFd in recvBuffers && recvBuffers == old(recvBuffers)[clientFd := recvBuffers[clientFd]]
      ensures Agrees(recvBuffers[clientFd := old(recvBuffers)[clientFd]]) && Free(line, '\n')
      ensures var rest := CutLines(recvBuffers[clientFd]);
        CutLines(old(recvBuffers)[clientFd]) == Cut([line] + rest.lines, rest.rest)
      ensures |recvBuffers[clientFd]| < |old(recvBuffers)[clientFd]|
    {
      hide TablesOk, CutLines;
      ghost var was := recvBuffers;
      var rest;
      line, rest := TakeLine(recvBuffers[clientFd], pos);
      recvBuffers := recvBuffers[clientFd := rest];
      assert recvBuffers[clientFd := was[clientFd]] == was;
      state.NothingChanged();
    }

    /** One turn of the line loop. */
    method NextLine(clientFd: int, pos: nat, ghost goal: Cut, ghost goalTrace: seq<Step>,
                    ghost goalRecv: map<int, string>)
      returns (next: int)
      requires Agrees(recvBuffers) && LinesLeft(clientFd, goal, goalTrace, goalRecv, pos)
      modifies this`recvBuffers, this`sendBuffers, this`pollfds, this`trace, state.Repr()
      ensures Agrees(recvBuffers) && fresh(state.Repr() - old(state.Repr()))
      ensures LinesLeft(clientFd, goal, goalTrace, goalRecv, next)
      ensures |recvBuffers[clientFd]| < |old(recvBuffers)[clientFd]|
    {
      hide Agrees, BooksOk, TablesOk, Next, CutLines, LineSteps;
      ghost var before := recvBuffers[clientFd];
      var line := PopLine(clientFd, pos);
      LineStepsHead(trace, clientFd, line, CutLines(recvBuffers[clientFd]).lines);
      ProcessMessage(clientFd, line, before);
      label processed:
      next := FindNewline(recvBuffers[clientFd]);
      state.NothingChanged@processed();
    }

    /** The line loop of receiveData. */
    method ProcessLines(clientFd: int)
      requires clientFd in recvBuffers && Agrees(recvBuffers)
      requires forall fd | fd in recvBuffers && fd != clientFd :: Free(recvBuffers[fd], '\n')
      modifies this`recvBuffers, this`sendBuffers, this`pollfds, this`trace, state.Repr()
      ensures Valid() && fresh(state.Repr() - old(state.Repr()))
      ensures trace == old(trace) + LineSteps(clientFd, CutLines(old(recvBuffers)[clientFd]).lines)
      ensures recvBuffers == old(recvBuffers)[clientFd := CutLines(old(recvBuffers)[clientFd]).rest]
    {
      hide CutLines, Agrees, LineSteps;
      ghost var goal := CutLines(recvBuffers[clientFd]);
      ghost var goalTrace, goalRecv := trace + LineSteps(clientFd, goal.lines), recvBuffers[clientFd := goal.rest];
      var pos := FindNewline(recvBuffers[clientFd]);
      while pos >= 0
        invariant Agrees(recvBuffers) && fresh(state.Repr() - old(state.Repr()))
        invariant LinesLeft(clientFd, goal, goalTrace, goalRecv, pos)
        decreases |recvBuffers[clientFd]|
      {
        pos := NextLine(clientFd, pos, goal, goalTrace, goalRecv);
      }
      CutNone(recvBuffers[clientFd]);
      LineStepsNone(trace, clientFd);
      assert recvBuffers == goalRecv;
    }

    /** A chunk, on the server's own tables. */
    method StoreChunk(ghost s: State, clientFd: int, bytes: string)
      requires BooksOk(s, recvBuffers) && clientFd in recvBuffers
      modifies this`recvBuffers, this`conns
      ensures BooksOk(s, recvBuffers) && clientFd in old(conns)
      ensures recvBuffers == old(recvBuffers)[clientFd := old(recvBuffers)[clientFd] + Filtered(bytes)]
      ensures conns == old(conns)[clientFd := old(conns)[clientFd].(received := old(conns)[clientFd].received + bytes)]
    {
      hide TablesOk, PollsAgree, Filtered, Good;
      BookFacts(s, recvBuffers);
      var chunk := DropControls(bytes);
      ChunkTables(state.password, serverFd, trace, s, conns, pollfds, recvBuffers, sendBuffers, clientFd, bytes);
      recvBuffers := recvBuffers[clientFd := recvBuffers[clientFd] + chunk];
      conns := conns[clientFd := conns[clientFd].(received := conns[clientFd].received + bytes)];
    }

    /** What receiveData does with a chunk before it looks for lines. */
    method AppendChunk(clientFd: int, bytes: string)
      requires Valid() && clientFd in recvBuffers
      modifies this`recvBuffers, this`conns
      ensures Agrees(recvBuffers) && clientFd in old(conns)
      ensures recvBuffers == old(recvBuffers)[clientFd := old(recvBuffers)[clientFd] + Filtered(bytes)]
      ensures conns == old(conns)[clientFd := old(conns)[clientFd].(received := old(conns)[clientFd].received + bytes)]
    {
      hide BooksOk, Filtered;
      StoreChunk(state.View(), clientFd, bytes);
      state.NothingChanged();
    }

    /** receiveData, for a chunk that is not empty. */
    method ReceiveChunk(clientFd: int, bytes: string)
      requires Valid() && clientFd in recvBuffers
      modifies this, state.Repr()
      ensures Valid() && fresh(state.Repr() - old(state.Repr()))
      ensures clientFd in old(conns)
      ensures conns == old(conns)[clientFd := old(conns)[clientFd].(received := old(conns)[clientFd].received + bytes)]
      ensures trace == old(trace) + LineSteps(clientFd, CutLines(old(recvBuffers)[clientFd] + Filtered(bytes)).lines)
    {
      hide Agrees, CutLines, LineSteps, Filtered;
      AppendChunk(clientFd, bytes);
      ProcessLines(clientFd);
    }

    /** receiveData, with what recv returned: the number of bytes, 0 for a closed connection, or a
        negative error. */
    method ReceiveData(clientFd: int, bytesRead: int, bytes: string)
      requires Valid() && clientFd in recvBuffers && (bytesRead > 0 ==> |bytes| == bytesRead)
      modifies this, state.Repr()
      ensures Valid() && fresh(state.Repr() - old(state.Repr()))
      ensures bytesRead <= 0 ==> trace == old(trace) + [Disconnect(clientFd)] && conns == old(conns) - {clientFd}
      ensures bytesRead > 0 ==>
        && clientFd in old(conns)
        && conns == old(conns)[clientFd := old(conns)[clientFd].(received := old(conns)[clientFd].received + bytes)]
        && trace == old(trace) + LineSteps(clientFd, CutLines(old(recvBuffers)[clientFd] + Filtered(bytes)).lines)
    {
      hide *;
      Connected(clientFd);
      if bytesRead < 0 {
        DisconnectClient(clientFd);
      } else if bytesRead == 0 {
        DisconnectClient(clientFd);
      } else {
        ReceiveChunk(clientFd, bytes);
      }
    }

    // ----- Connections come and go ---------------------------------------------------------------

    /** What acceptNewClient adds to the server's tables and to the state. */
    method OpenConnection(clientFd: int, addr: nat) returns (ghost obj: Client)
      requires state.Valid() && this !in state.Repr() && clientFd !in state.clientsByFd
      requires forall c | c in state.clientsByFd.Values :: c.addr != addr
      modifies this`pollfds, this`recvBuffers, this`sendBuffers, state`clientsByFd
      ensures state.Shape() && this !in state.Repr() && fresh(state.Repr() - old(state.Repr()))
      ensures FreshObject(old(state.View()), clientFd, obj)
        && state.View() == AddClient(old(state.View()), clientFd, obj)
      ensures pollfds == old(pollfds) + [PollFd(clientFd, false)]
      ensures recvBuffers == old(recvBuffers)[clientFd := ""] && sendBuffers == old(sendBuffers)[clientFd := ""]
    {
      pollfds := pollfds + [PollFd(clientFd, false)];
      recvBuffers := recvBuffers[clientFd := ""];
      sendBuffers := sendBuffers[clientFd := ""];
      state.NothingChanged();
      var added := state.AddNewClient(clientFd, addr);
      obj := state.clientsByFd[clientFd];
      ValuesAfterInsert(old(state.clientsByFd), clientFd, obj);
    }

    ghost method RecordAccept(s: State, clientFd: int, obj: Client, recv: map<int, string>, send: map<int, string>,
                              polls: seq<PollFd>)
      requires TablesOk(state.password, serverFd, trace, s, conns, polls, recv, send)
      requires clientFd !in s.byFd && clientFd != serverFd && FreshObject(s, clientFd, obj)
      requires recvBuffers == recv[clientFd := ""] && sendBuffers == send[clientFd := ""]
      requires pollfds == polls + [PollFd(clientFd, false)]
      modifies this`trace, this`conns
      ensures BooksOk(AddClient(s, clientFd, obj), recvBuffers)
      ensures trace == old(trace) + [Accept(clientFd, obj)] && conns == old(conns)[clientFd := Conn(|trace|, "", "")]
    {
      hide TablesOk, FreshObject, AddClient;
      AcceptTables(state.password, serverFd, trace, s, conns, polls, recv, send, clientFd, obj);
      trace := trace + [Accept(clientFd, obj)];
      conns := conns[clientFd := Conn(|trace|, "", "")];
    }

    /** acceptNewClient, with the descriptor accept returned (the system never returns one that is
        open) and the address of the new Client object. */
    method AcceptNewClient(clientFd: int, addr: nat)
      requires Valid()
      requires clientFd >= 0 ==> clientFd != serverFd && clientFd !in recvBuffers
      requires forall c | c in state.clientsByFd.Values :: c.addr != addr
      modifies this, state`clientsByFd
      ensures Valid() && fresh(state.Repr() - old(state.Repr()))
      ensures clientFd < 0 ==> trace == old(trace) && conns == old(conns)
      ensures clientFd >= 0 ==>
        && clientFd in state.clientsByFd
        && trace == old(trace) + [Accept(clientFd, state.clientsByFd[clientFd])]
        && conns == old(conns)[clientFd := Conn(|trace|, "", "")]
    {
      hide TablesOk, PollsAgree, Inv, FreshObject, Good;
      if clientFd >= 0 {
        ghost var s, recv, send, polls := state.View(), recvBuffers, sendBuffers, pollfds;
        StateIsValid(recvBuffers);
        BookFacts(s, recvBuffers);
        ghost var obj := OpenConnection(clientFd, addr);
        label added:
        RecordAccept(s, clientFd, obj, recv, send, polls);
        state.NothingChanged@added();
        assert BooksOk(state.View(), recvBuffers);
      }
    }

    /** What disconnectClient takes out of the server's tables and of the state. */
    method CloseConnection(clientFd: int)
      requires state.Valid() && this !in state.Repr()
      requires PollsAgree(pollfds, serverFd, sendBuffers) && clientFd != serverFd
      modifies this`pollfds, this`recvBuffers, this`sendBuffers, this`trace, this`conns, state, state.channels.Values
      ensures state.Shape() && state.Repr() <= old(state.Repr())
      ensures state.View() == RemoveClient(old(state.View()), clientFd)
      ensures PollsAgree(pollfds, serverFd, sendBuffers)
      ensures recvBuffers == old(recvBuffers) - {clientFd} && sendBuffers == old(sendBuffers) - {clientFd}
      ensures conns == old(conns) - {clientFd}
      ensures trace == if clientFd in old(conns) then old(trace) + [Disconnect(clientFd)] else old(trace)
      ensures clientFd !in old(sendBuffers) ==> pollfds == old(pollfds)
    {
      hide PollsAgree, Inv, RemoveClient;
      recvBuffers := recvBuffers - {clientFd};
      ErasePoll(clientFd);
      sendBuffers := sendBuffers - {clientFd};
      if clientFd in conns {
        trace := trace + [Disconnect(clientFd)];
      }
      conns := conns - {clientFd};
      state.NothingChanged();
      var removed := state.RemoveClient(clientFd);
    }

    /** disconnectClient, on the tables and the state. */
    method DropConnection(clientFd: int)
      requires Agrees(recvBuffers) && clientFd != serverFd
      modifies this, state.Repr()
      ensures Agrees(recvBuffers) && state.Repr() <= old(state.Repr())
      ensures recvBuffers == old(recvBuffers) - {clientFd} && sendBuffers == old(sendBuffers) - {clientFd}
      ensures conns == old(conns) - {clientFd}
      ensures trace == if clientFd in old(conns) then old(trace) + [Disconnect(clientFd)] else old(trace)
      ensures clientFd !in old(conns) ==>
        recvBuffers == old(recvBuffers) && sendBuffers == old(sendBuffers) && pollfds == old(pollfds)
      ensures clientFd !in old(conns) ==> state.View() == old(state.View())
    {
      hide TablesOk, PollsAgree, Inv, RemoveClient, Good, Next;
      ghost var s, recv, send, polls, was, steps := state.View(), recvBuffers, sendBuffers, pollfds, conns, trace;
      StateIsValid(recvBuffers);
      BookFacts(s, recvBuffers);
      CloseConnection(clientFd);
      DisconnectTables(state.password, serverFd, steps, s, was, polls, recv, send, clientFd, pollfds);
    }

    /** Disconnecting a connection that is not there changes nothing: twice is the same as once. */
    method DisconnectClient(clientFd: int)
      requires Valid() && clientFd != serverFd
      modifies this, state.Repr()
      ensures Valid() && state.Repr() <= old(state.Repr())
      ensures conns == old(conns) - {clientFd}
      ensures trace == if clientFd in old(conns) then old(trace) + [Disconnect(clientFd)] else old(trace)
      ensures clientFd !in old(conns) ==>
        && recvBuffers == old(recvBuffers) && sendBuffers == old(sendBuffers) && pollfds == old(pollfds)
        && state.View() == old(state.View())
    {
      hide Agrees, BooksOk, TablesOk, Next;
      DropConnection(clientFd);
    }

    /** What a successful send does, on the server's own tables: the bytes taken leave the buffer, and
        POLLOUT goes with the last. */
    method CutSent(ghost s: State, clientFd: int, bytesSent: nat)
      requires BooksOk(s, recvBuffers) && clientFd in sendBuffers && 0 < bytesSent <= |sendBuffers[clientFd]|
      modifies this`sendBuffers, this`pollfds, this`conns
      ensures BooksOk(s, recvBuffers)
      ensures sendBuffers == old(sendBuffers)[clientFd := old(sendBuffers)[clientFd][bytesSent..]]
      ensures clientFd in old(conns) && conns == old(conns)[clientFd := old(conns)[clientFd].(
        sent := old(conns)[clientFd].sent + old(sendBuffers)[clientFd][..bytesSent])]
    {
      hide TablesOk, PollsAgree, Good;
      BookFacts(s, recvBuffers);
      SendTables(state.password, serverFd, trace, s, conns, pollfds, recvBuffers, sendBuffers, clientFd, bytesSent);
      conns := conns[clientFd := conns[clientFd].(sent := conns[clientFd].sent + sendBuffers[clientFd][..bytesSent])];
      sendBuffers := sendBuffers[clientFd := sendBuffers[clientFd][bytesSent..]];
      if sendBuffers[clientFd] == "" {
        SetPollOut(clientFd, false);
      }
    }

    method TakeSent(clientFd: int, bytesSent: nat)
      requires Valid() && clientFd in sendBuffers && 0 < bytesSent <= |sendBuffers[clientFd]|
      modifies this`sendBuffers, this`pollfds, this`conns
      ensures Valid()
      ensures sendBuffers == old(sendBuffers)[clientFd := old(sendBuffers)[clientFd][bytesSent..]]
      ensures clientFd in old(conns) && conns == old(conns)[clientFd := old(conns)[clientFd].(
        sent := old(conns)[clientFd].sent + old(sendBuffers)[clientFd][..bytesSent])]
    {
      hide BooksOk;
      CutSent(state.View(), clientFd, bytesSent);
      state.NothingChanged();
    }

    /** sendData when nothing waits: POLLOUT is cleared, which it is already. */
    method NothingToSend(clientFd: int)
      requires Valid() && clientFd in sendBuffers && sendBuffers[clientFd] == ""
      modifies this`pollfds
      ensures Valid() && pollfds == old(pollfds)
    {
      hide TablesOk, PollsAgree, Good;
      BookFacts(state.View(), recvBuffers);
      StillArmed(pollfds, serverFd, sendBuffers, clientFd);
      SetPollOut(clientFd, false);
      state.NothingChanged();
    }

    /** sendData, with what send returned: how many bytes it took, or a negative error. */
    method SendData(clientFd: int, bytesSent: int)
      requires Valid() && clientFd in sendBuffers && bytesSent <= |sendBuffers[clientFd]|
      modifies this, state.Repr()
      ensures Valid() && state.Repr() <= old(state.Repr())
      ensures old(sendBuffers)[clientFd] == "" || bytesSent == 0 ==>
        conns == old(conns) && trace == old(trace) && sendBuffers == old(sendBuffers) && pollfds == old(pollfds)
      ensures old(sendBuffers)[clientFd] != "" && bytesSent > 0 ==>
        && trace == old(trace)
        && conns == old(conns)[clientFd := old(conns)[clientFd].(
             sent := old(conns)[clientFd].sent + old(sendBuffers)[clientFd][..bytesSent])]
      ensures old(sendBuffers)[clientFd] != "" && bytesSent < 0 ==>
        conns == old(conns) - {clientFd} && trace == old(trace) + [Disconnect(clientFd)]
    {
      hide *;
      SenderConnected(clientFd);
      if sendBuffers[clientFd] == "" {
        NothingToSend(clientFd);
        return;
      }
      if bytesSent > 0 {
        TakeSent(clientFd, bytesSent);
      } else if bytesSent < 0 {
        DisconnectClient(clientFd);
      }
    }
  }
}
