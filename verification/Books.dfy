// What the buffers of src/Server.cpp have to agree with: the trace of what has happened, and for
// each connection the bytes that came in and went out.
module Books {
  import opened Text
  import opened Parser
  import opened Clients
  import opened Replies
  import opened Model
  import opened Answers
  import opened Delivery
  import opened Framing
  import opened Runs

  /** `s` is where the trace leads from the empty server. */
  ghost predicate Reached(password: string, trace: seq<Step>, s: State) {
    LegalRun(NewServer(password), trace) && After(NewServer(password), trace) == s
  }

  lemma ReachedGood(password: string, trace: seq<Step>, s: State)
    requires Reached(password, trace, s)
    ensures Good(s)
  {
    NewServerInv(password);
    RunGood(NewServer(password), trace);
  }

  lemma ReachedStep(password: string, trace: seq<Step>, s: State, st: Step)
    requires Reached(password, trace, s) && Legal(s, st)
    ensures Reached(password, trace + [st], Next(s, st).s)
  {
    AfterAppend(NewServer(password), trace, st);
  }

  // ----- One connection ---------------------------------------------------------------------------

  /** One connection's account: where in the trace it was accepted, all bytes received from it and
      all bytes sent to it. */
  datatype Conn = Conn(birth: nat, received: string, sent: string)

  /** The lines of one connection that have been processed. */
  function Typed(steps: seq<Step>, fd: int): seq<string> {
    if steps == [] then []
    else if steps[0].Line? && steps[0].fd == fd then [steps[0].line] + Typed(steps[1..], fd)
    else Typed(steps[1..], fd)
  }

  /** The lines that the steps since `birth` have addressed to a connection. */
  ghost function Owed(password: string, trace: seq<Step>, birth: nat, fd: int): seq<string>
    requires birth <= |trace|
  {
    Heard(After(NewServer(password), trace[..birth]), trace[birth..], fd)
  }

  /** The connection was accepted just before `birth` and has not gone since. */
  ghost predicate Born(trace: seq<Step>, fd: int, birth: nat) {
    && 0 < birth <= |trace|
    && trace[birth - 1].Accept? && trace[birth - 1].fd == fd
    && forall i | birth <= i < |trace| :: trace[i] != Disconnect(fd)
  }

  /** All the lines there are in what has come in: those processed and those still in the buffer. */
  function Progress(lines: seq<string>, buffer: string): Cut {
    Cut(lines + CutLines(buffer).lines, CutLines(buffer).rest)
  }

  /** Input: the processed lines and the receive buffer are the framing of the bytes received. */
  ghost predicate InputOk(trace: seq<Step>, fd: int, conn: Conn, recv: string)
    requires conn.birth <= |trace|
  {
    Progress(Typed(trace[conn.birth..], fd), recv) == Batch(conn.received)
  }

  /** Output: the bytes sent and the send buffer are all that was addressed to the connection, in order. */
  ghost predicate OutputOk(password: string, trace: seq<Step>, fd: int, conn: Conn, send: string)
    requires conn.birth <= |trace|
  {
    var owed := Owed(password, trace, conn.birth, fd);
    conn.sent + send == Flat(owed) && forall t | t in owed :: Framed(t)
  }

  ghost predicate Booked(password: string, trace: seq<Step>, fd: int, conn: Conn, recv: string, send: string) {
    && Born(trace, fd, conn.birth)
    && InputOk(trace, fd, conn, recv)
    && OutputOk(password, trace, fd, conn, send)
  }

  // ----- Growing traces ---------------------------------------------------------------------------

  lemma {:induction false} TypedAppend(steps: seq<Step>, fd: int, st: Step)
    ensures Typed(steps + [st], fd) == Typed(steps, fd) + if st.Line? && st.fd == fd then [st.line] else []
  {
    var all := steps + [st];
    if steps == [] {
      assert all[1..] == [];
    } else {
      TypedAppend(steps[1..], fd, st);
      assert all[0] == steps[0] && all[1..] == steps[1..] + [st];
    }
  }

  lemma {:induction false} HeardAppend(s: State, steps: seq<Step>, fd: int, st: Step)
    ensures Heard(s, steps + [st], fd) == Heard(s, steps, fd) + LinesTo(Next(After(s, steps), st).r, fd)
    decreases |steps|
  {
    hide Next, LinesTo;
    var all := steps + [st];
    var last := LinesTo(Next(After(s, steps), st).r, fd);
    if steps == [] {
      assert all[0] == st && all[1..] == [];
      assert last + [] == last && [] + last == last;
    } else {
      var o := Next(s, steps[0]);
      HeardAppend(o.s, steps[1..], fd, st);
      assert all[0] == steps[0] && all[1..] == steps[1..] + [st];
      var now, later := LinesTo(o.r, fd), Heard(o.s, steps[1..], fd);
      assert now + (later + last) == now + later + last;
    }
  }

  lemma {:induction false} AfterSplit(s: State, a: seq<Step>, b: seq<Step>)
    ensures After(s, a + b) == After(After(s, a), b)
    decreases |a|
  {
    hide Next;
    if a == [] {
      assert a + b == b;
    } else {
      AfterSplit(Next(s, a[0]).s, a[1..], b);
      assert (a + b)[0] == a[0] && (a + b)[1..] == a[1..] + b;
    }
  }

  lemma {:induction false} LegalSplit(s: State, a: seq<Step>, b: seq<Step>)
    requires LegalRun(s, a + b)
    ensures LegalRun(s, a) && LegalRun(After(s, a), b)
    decreases |a|
  {
    hide Next;
    if a == [] {
      assert a + b == b;
    } else {
      assert (a + b)[0] == a[0] && (a + b)[1..] == a[1..] + b;
      LegalSplit(Next(s, a[0]).s, a[1..], b);
    }
  }

  lemma SliceAppend<T>(trace: seq<T>, birth: nat, st: T)
    requires birth <= |trace|
    ensures (trace + [st])[..birth] == trace[..birth]
    ensures (trace + [st])[birth..] == trace[birth..] + [st]
    ensures trace[..birth] + trace[birth..] == trace
  {
  }

  lemma OwedGrows(password: string, trace: seq<Step>, birth: nat, fd: int, st: Step)
    requires birth <= |trace|
    ensures Owed(password, trace + [st], birth, fd)
         == Owed(password, trace, birth, fd) + LinesTo(Next(After(NewServer(password), trace), st).r, fd)
  {
    hide Next, LinesTo, Heard, After;
    var start, life := After(NewServer(password), trace[..birth]), trace[birth..];
    SliceAppend(trace, birth, st);
    AfterSplit(NewServer(password), trace[..birth], life);
    HeardAppend(start, life, fd, st);
  }

  lemma {:induction false} FlatConcat(a: seq<string>, b: seq<string>)
    ensures Flat(a + b) == Flat(a) + Flat(b)
  {
    if a == [] {
      assert a + b == b;
    } else {
      FlatConcat(a[1..], b);
      assert (a + b)[0] == a[0] && (a + b)[1..] == a[1..] + b;
      var x, y := Flat(a[1..]), Flat(b);
      assert a[0] + (x + y) == a[0] + x + y;
    }
  }

  // ----- What each event does to the books -----------------------------------------------------------

  /** A connection starts with clean books. */
  lemma BookedAtBirth(password: string, trace: seq<Step>, fd: int, obj: Client)
    ensures Booked(password, trace + [Accept(fd, obj)], fd, Conn(|trace| + 1, "", ""), "", "")
  {
    hide Next;
    var all := trace + [Accept(fd, obj)];
    assert all[|trace| + 1..] == [];
    CutNone("");
  }

  lemma BornLater(trace: seq<Step>, fd: int, birth: nat, st: Step)
    requires Born(trace, fd, birth) && st != Disconnect(fd)
    ensures Born(trace + [st], fd, birth)
  {
    hide Next;
  }

  lemma OutputGrows(password: string, trace: seq<Step>, s: State, st: Step, fd: int, conn: Conn, send: string)
    requires Reached(password, trace, s) && conn.birth <= |trace| && OutputOk(password, trace, fd, conn, send)
    requires forall t | t in LinesTo(Next(s, st).r, fd) :: Framed(t)
    ensures OutputOk(password, trace + [st], fd, conn, send + Flat(LinesTo(Next(s, st).r, fd)))
  {
    hide Next, LinesTo, Heard, After, Flat, Owed;
    OwedGrows(password, trace, conn.birth, fd, st);
    var owed, more := Owed(password, trace, conn.birth, fd), LinesTo(Next(s, st).r, fd);
    FlatConcat(owed, more);
    assert conn.sent + send + Flat(more) == conn.sent + (send + Flat(more));
  }

  /** A step that is not this connection's own line only adds to its output. */
  lemma BookedStep(password: string, trace: seq<Step>, s: State, st: Step, fd: int, conn: Conn,
                   recv: string, send: string)
    requires Reached(password, trace, s) && Booked(password, trace, fd, conn, recv, send)
    requires st != Disconnect(fd) && !(st.Line? && st.fd == fd)
    requires forall t | t in LinesTo(Next(s, st).r, fd) :: Framed(t)
    ensures Booked(password, trace + [st], fd, conn, recv, send + Flat(LinesTo(Next(s, st).r, fd)))
  {
    hide Next, Heard, Flat, After;
    BornLater(trace, fd, conn.birth, st);
    OutputGrows(password, trace, s, st, fd, conn, send);
    TypedAppend(trace[conn.birth..], fd, st);
    assert (trace + [st])[conn.birth..] == trace[conn.birth..] + [st];
  }

  /** Processing the first line of the buffer moves it from the buffer to the lines processed. */
  lemma BookedLine(password: string, trace: seq<Step>, s: State, fd: int, conn: Conn, recv: string, send: string,
                   line: string, rest: string)
    requires Reached(password, trace, s) && Booked(password, trace, fd, conn, recv, send)
    requires CutLines(recv) == Cut([line] + CutLines(rest).lines, CutLines(rest).rest)
    requires forall t | t in LinesTo(Next(s, Line(fd, line)).r, fd) :: Framed(t)
    ensures Booked(password, trace + [Line(fd, line)], fd, conn, rest,
                   send + Flat(LinesTo(Next(s, Line(fd, line)).r, fd)))
  {
    hide Next, Heard, Flat, After, CutLines;
    var st := Line(fd, line);
    BornLater(trace, fd, conn.birth, st);
    OutputGrows(password, trace, s, st, fd, conn, send);
    var before := Typed(trace[conn.birth..], fd);
    TypedAppend(trace[conn.birth..], fd, st);
    assert (trace + [st])[conn.birth..] == trace[conn.birth..] + [st];
    assert before + ([line] + CutLines(rest).lines) == before + [line] + CutLines(rest).lines;
  }

  lemma ProgressExtends(lines: seq<string>, recv: string, more: string)
    ensures Progress(lines, recv + more) == Extend(Progress(lines, recv), more)
  {
    CutConcat(recv, more);
    var a, b := CutLines(recv), CutLines(CutLines(recv).rest + more);
    assert lines + a.lines + b.lines == lines + (a.lines + b.lines);
  }

  /** Bytes that arrive go to the end of the buffer, filtered. */
  lemma BookedChunk(password: string, trace: seq<Step>, fd: int, conn: Conn, recv: string, send: string, bytes: string)
    requires Booked(password, trace, fd, conn, recv, send)
    ensures Booked(password, trace, fd, conn.(received := conn.received + bytes), recv + Filtered(bytes), send)
  {
    hide Next, Heard, Flat, CutLines, After;
    var lines := Typed(trace[conn.birth..], fd);
    FeedStep(conn.received, bytes);
    assert Progress(lines, recv + Filtered(bytes)) == Extend(Progress(lines, recv), Filtered(bytes)) by {
      ProgressExtends(lines, recv, Filtered(bytes));
    }
  }

  /** A partial send moves bytes from the front of the buffer to the bytes sent. */
  lemma BookedSend(password: string, trace: seq<Step>, fd: int, conn: Conn, recv: string, send: string, n: nat)
    requires Booked(password, trace, fd, conn, recv, send) && n <= |send|
    ensures Booked(password, trace, fd, conn.(sent := conn.sent + send[..n]), recv, send[n..])
  {
    hide Next, Heard, Flat, CutLines, After;
    assert conn.sent + send[..n] + send[n..] == conn.sent + send;
  }

  lemma {:induction false} FramedLines(bodies: seq<Body>)
    requires forall b | b in bodies :: OneLine(b)
    ensures forall t | t in Lines(bodies) :: Framed(t)
  {
    if bodies == [] {
    } else {
      assert bodies[0] in bodies;
      WireFramed(bodies[0]);
      FramedLines(bodies[1..]);
    }
  }

  /** Every line of a good reply list is framed. */
  lemma GoodLines(s: State, r: seq<Reply>, fd: int)
    requires AllGood(s, r)
    ensures forall t | t in LinesTo(r, fd) :: Framed(t)
  {
    ForFdMembers(r, fd);
    forall b | b in ForFd(r, fd) ensures OneLine(b) {
      assert GoodReply(s, Reply(fd, b));
    }
    FramedLines(ForFd(r, fd));
  }

  /** What processing one line answers: good replies, and the same connections. */
  lemma ProcessGood(s: State, fd: int, line: string)
    requires Good(s) && Free(line, '\n')
    ensures AllGood(s, Process(s, fd, line).r) && Process(s, fd, line).s.byFd == s.byFd
  {
    ParsedFromLine(line);
    DispatchGood(s, fd, Parsed(line));
  }

  // ----- All connections together ------------------------------------------------------------------

  ghost predicate AllBooked(password: string, trace: seq<Step>, conns: map<int, Conn>,
                            recv: map<int, string>, send: map<int, string>) {
    && conns.Keys == recv.Keys == send.Keys
    && forall fd | fd in conns :: Booked(password, trace, fd, conns[fd], recv[fd], send[fd])
  }

  lemma AcceptBooks(password: string, trace: seq<Step>, s: State, conns: map<int, Conn>,
                    recv: map<int, string>, send: map<int, string>, fd: int, obj: Client)
    requires Reached(password, trace, s) && AllBooked(password, trace, conns, recv, send) && fd !in conns
    ensures AllBooked(password, trace + [Accept(fd, obj)], conns[fd := Conn(|trace| + 1, "", "")],
                      recv[fd := ""], send[fd := ""])
  {
    hide Booked, Reached, LegalRun, After;
    var st := Accept(fd, obj);
    BookedAtBirth(password, trace, fd, obj);
    forall g | g in conns ensures Booked(password, trace + [st], g, conns[g], recv[g], send[g]) {
      BookedStep(password, trace, s, st, g, conns[g], recv[g], send[g]);
      assert send[g] + "" == send[g];
    }
  }

  lemma DisconnectBooks(password: string, trace: seq<Step>, s: State, conns: map<int, Conn>,
                        recv: map<int, string>, send: map<int, string>, fd: int)
    requires Reached(password, trace, s) && AllBooked(password, trace, conns, recv, send)
    ensures AllBooked(password, trace + [Disconnect(fd)], conns - {fd}, recv - {fd}, send - {fd})
  {
    hide Booked, Reached, LegalRun, After;
    var st := Disconnect(fd);
    forall g | g in conns && g != fd ensures Booked(password, trace + [st], g, conns[g], recv[g], send[g]) {
      BookedStep(password, trace, s, st, g, conns[g], recv[g], send[g]);
      assert send[g] + "" == send[g];
    }
  }

  /** Every send buffer has grown by the replies to its connection. */
  ghost predicate Queued(before: map<int, string>, after: map<int, string>, r: seq<Reply>) {
    && after.Keys == before.Keys
    && forall g | g in before :: after[g] == before[g] + Flat(LinesTo(r, g))
  }

  lemma LineBooks(password: string, trace: seq<Step>, s: State, conns: map<int, Conn>,
                  recv: map<int, string>, send: map<int, string>, fd: int, line: string, rest: string,
                  send': map<int, string>)
    requires Reached(password, trace, s) && AllBooked(password, trace, conns, recv, send) && fd in conns
    requires CutLines(recv[fd]) == Cut([line] + CutLines(rest).lines, CutLines(rest).rest)
    requires AllGood(s, Next(s, Line(fd, line)).r) && Queued(send, send', Next(s, Line(fd, line)).r)
    ensures AllBooked(password, trace + [Line(fd, line)], conns, recv[fd := rest], send')
  {
    hide Next, Heard, Flat, After, CutLines, Booked, Reached, LinesTo;
    var st := Line(fd, line);
    forall g | g in conns ensures Booked(password, trace + [st], g, conns[g], recv[fd := rest][g], send'[g]) {
      GoodLines(s, Next(s, st).r, g);
      if g == fd {
        BookedLine(password, trace, s, fd, conns[fd], recv[fd], send[fd], line, rest);
      } else {
        BookedStep(password, trace, s, st, g, conns[g], recv[g], send[g]);
      }
    }
  }

  lemma ChunkBooks(password: string, trace: seq<Step>, conns: map<int, Conn>,
                   recv: map<int, string>, send: map<int, string>, fd: int, bytes: string)
    requires AllBooked(password, trace, conns, recv, send) && fd in conns
    ensures AllBooked(password, trace, conns[fd := conns[fd].(received := conns[fd].received + bytes)],
                      recv[fd := recv[fd] + Filtered(bytes)], send)
  {
    hide Booked;
    BookedChunk(password, trace, fd, conns[fd], recv[fd], send[fd], bytes);
  }

  lemma SendBooks(password: string, trace: seq<Step>, conns: map<int, Conn>,
                  recv: map<int, string>, send: map<int, string>, fd: int, n: nat)
    requires AllBooked(password, trace, conns, recv, send) && fd in conns && n <= |send[fd]|
    ensures AllBooked(password, trace, conns[fd := conns[fd].(sent := conns[fd].sent + send[fd][..n])],
                      recv, send[fd := send[fd][n..]])
  {
    hide Booked;
    BookedSend(password, trace, fd, conns[fd], recv[fd], send[fd], n);
  }

  // ----- What the books tell about a connection ---------------------------------------------------

  /** The receive buffer never holds a complete line exactly when every line that has arrived has
      been processed. */
  lemma NothingWaits(trace: seq<Step>, fd: int, conn: Conn, recv: string)
    requires conn.birth <= |trace| && InputOk(trace, fd, conn, recv)
    ensures Free(recv, '\n') <==> Cut(Typed(trace[conn.birth..], fd), recv) == Batch(conn.received)
  {
    if Free(recv, '\n') {
      CutNone(recv);
    } else {
      CutWithout(Filtered(conn.received), '\n');
    }
  }

  function WithoutNewline(lines: seq<string>): seq<string>
    requires forall t | t in lines :: Framed(t)
  {
    if lines == [] then []
    else
      var t := lines[0];
      assert t in lines && Framed(t);
      [t[..|t| - 1]] + WithoutNewline(lines[1..])
  }

  /** A client that cuts its input at newlines recovers every reply, and never part of one. */
  lemma {:induction false} StreamDecodes(lines: seq<string>)
    requires forall t | t in lines :: Framed(t)
    ensures Split(Flat(lines), '\n') == WithoutNewline(lines) + [""]
  {
    if lines == [] {
    } else {
      var t, later := lines[0], lines[1..];
      assert t in lines && forall u | u in later :: u in lines;
      StreamDecodes(later);
      var text := t[..|t| - 1];
      assert t == text + ['\n'];
      SplitHead(text, Flat(later), '\n');
      assert Flat(lines) == text + ['\n'] + Flat(later);
    }
  }

  lemma BirthState(password: string, trace: seq<Step>, s: State, fd: int, birth: nat)
    returns (begin: State, obj: Client)
    requires Reached(password, trace, s) && Born(trace, fd, birth)
    ensures begin == After(NewServer(password), trace[..birth]) && Good(begin)
    ensures LegalRun(begin, trace[birth..]) && After(begin, trace[birth..]) == s
    ensures obj.socketFd == fd && obj in begin.clients && begin.clients[obj] == NEW_CLIENT
  {
    var start, before := NewServer(password), trace[..birth - 1];
    var st := trace[birth - 1];
    assert trace[..birth] + trace[birth..] == trace && before + [st] == trace[..birth];
    LegalSplit(start, trace[..birth], trace[birth..]);
    AfterSplit(start, trace[..birth], trace[birth..]);
    LegalSplit(start, before, [st]);
    AfterSplit(start, before, [st]);
    begin := After(start, trace[..birth]);
    obj := st.obj;
    ReachedGood(password, before, After(start, before));
    assert [st][1..] == [];
    StepGood(After(start, before), st);
  }

  /** Over a connection's life each of 001 to 004 is addressed to it once if it is registered by now,
      and never otherwise. */
  lemma WelcomedIff(password: string, trace: seq<Step>, s: State, fd: int, birth: nat, k: nat)
    requires Reached(password, trace, s) && Born(trace, fd, birth) && 1 <= k <= 4
    ensures fd in s.byFd
    ensures Count(Owed(password, trace, birth, fd), k) == if s.Rec(s.byFd[fd]).Complete() then 1 else 0
  {
    var begin, obj := BirthState(password, trace, s, fd, birth);
    assert !Leaves(trace[birth..], obj) by {
      forall i | 0 <= i < |trace[birth..]| ensures trace[birth..][i] != Disconnect(fd) {
        assert trace[birth..][i] == trace[birth + i];
      }
    }
    WelcomedOnce(begin, trace[birth..], obj, k);
    ReachedGood(password, trace, s);
    assert s.byFd[fd] == obj;
  }
}
