// What one connection hears of one command: welcome bursts, MODE announcements, messages.
module Delivery {
  import opened Text
  import opened Parser
  import opened Clients
  import opened Channels
  import opened Replies
  import opened Model
  import opened Mode
  import opened Reading
  import opened Commands
  import opened Answers

  function Lines(bodies: seq<Body>): seq<string> {
    if bodies == [] then [] else [Wire(bodies[0])] + Lines(bodies[1..])
  }

  /** The lines that `r` sends to the connection `fd`, in order. */
  function LinesTo(r: seq<Reply>, fd: int): seq<string> {
    Lines(ForFd(r, fd))
  }

  lemma {:induction false} LinesConcat(a: seq<Body>, b: seq<Body>)
    ensures Lines(a + b) == Lines(a) + Lines(b)
  {
    hide Wire;
    if a == [] {
      assert a + b == b;
    } else {
      LinesConcat(a[1..], b);
      assert (a + b)[0] == a[0] && (a + b)[1..] == a[1..] + b;
      assert [Wire(a[0])] + (Lines(a[1..]) + Lines(b)) == [Wire(a[0])] + Lines(a[1..]) + Lines(b);
    }
  }

  lemma LinesToConcat(a: seq<Reply>, b: seq<Reply>, fd: int)
    ensures LinesTo(a + b, fd) == LinesTo(a, fd) + LinesTo(b, fd)
  {
    ForFdConcat(a, b, fd);
    LinesConcat(ForFd(a, fd), ForFd(b, fd));
  }

  lemma {:induction false} ForFdMembers(r: seq<Reply>, fd: int)
    ensures forall b | b in ForFd(r, fd) :: Reply(fd, b) in r
  {
    if r == [] {
    } else {
      ForFdMembers(r[1..], fd);
    }
  }

  // ----- Counting welcomes --------------------------------------------------------------------

  /** How many of the lines carry the numeric `k`. */
  function Count(lines: seq<string>, k: nat): nat {
    if lines == [] then 0 else (if CommandWord(lines[0]) == Code(k) then 1 else 0) + Count(lines[1..], k)
  }

  lemma {:induction false} CountConcat(a: seq<string>, b: seq<string>, k: nat)
    ensures Count(a + b, k) == Count(a, k) + Count(b, k)
  {
    hide CommandWord, Code;
    if a == [] {
      assert a + b == b;
    } else {
      CountConcat(a[1..], b, k);
      assert (a + b)[1..] == a[1..] + b;
    }
  }

  predicate NoWelcome(b: Body) {
    ProperHead(b) && !(b.Numeric? && b.num <= 4)
  }

  lemma DigitsOf(k: nat)
    requires k <= 999
    ensures k == 100 * (k / 100 % 10) + 10 * (k / 10 % 10) + k % 10
  {
  }

  lemma CodesDiffer(k: nat, n: nat)
    requires k <= 999 && n <= 999 && k != n
    ensures Code(k) != Code(n)
  {
    DigitsOf(k);
    DigitsOf(n);
  }

  /** Only a welcome numeric looks like one. */
  lemma NoWelcomeWord(b: Body, k: nat)
    requires NoWelcome(b) && 1 <= k <= 4
    ensures CommandWord(Wire(b)) != Code(k)
  {
    WireVerb(b);
    match b
    case Numeric(_, num, _) => CodesDiffer(k, num);
    case _ => assert !IsDigit(Verb(b)[0]) && IsDigit(Code(k)[0]);
  }

  lemma {:induction false} NoWelcomeCount(bodies: seq<Body>, k: nat)
    requires 1 <= k <= 4 && forall b | b in bodies :: NoWelcome(b)
    ensures Count(Lines(bodies), k) == 0
  {
    if bodies == [] {
    } else {
      assert bodies[0] in bodies;
      NoWelcomeWord(bodies[0], k);
      NoWelcomeCount(bodies[1..], k);
    }
  }

  lemma QuietCount(r: seq<Reply>, fd: int, k: nat)
    requires 1 <= k <= 4 && forall x | x in r :: NoWelcome(x.body)
    ensures Count(LinesTo(r, fd), k) == 0
  {
    ForFdMembers(r, fd);
    forall b | b in ForFd(r, fd) ensures NoWelcome(b) {
      assert Reply(fd, b) in r;
    }
    NoWelcomeCount(ForFd(r, fd), k);
  }

  lemma TellCount(s: State, c: Client, num: nat, k: nat, fd: int)
    requires 1 <= num <= 4 && 1 <= k <= 4
    ensures Count(LinesTo(Tell(s, c, num, ""), fd), k) == if fd == c.socketFd && num == k then 1 else 0
  {
    var b := Numeric(TargetName(s.Rec(c).nickname), num, "");
    WireVerb(b);
    if num != k { CodesDiffer(num, k); }
    assert ForFd(Tell(s, c, num, ""), fd) == if fd == c.socketFd then [b] else [];
    assert Lines([b]) == [Wire(b)];
  }

  /** The burst carries each of 001 to 004 once, to the client alone. */
  lemma BurstCount(s: State, c: Client, k: nat, fd: int)
    requires 1 <= k <= 4
    ensures Count(LinesTo(Welcome(s, c), fd), k) == if fd == c.socketFd then 1 else 0
  {
    var a, b, d, e := Tell(s, c, 1, ""), Tell(s, c, 2, ""), Tell(s, c, 3, ""), Tell(s, c, 4, "");
    LinesToConcat(a, b, fd);
    LinesToConcat(a + b, d, fd);
    LinesToConcat(a + b + d, e, fd);
    CountConcat(LinesTo(a, fd), LinesTo(b, fd), k);
    CountConcat(LinesTo(a, fd) + LinesTo(b, fd), LinesTo(d, fd), k);
    CountConcat(LinesTo(a, fd) + LinesTo(b, fd) + LinesTo(d, fd), LinesTo(e, fd), k);
    TellCount(s, c, 1, k, fd);
    TellCount(s, c, 2, k, fd);
    TellCount(s, c, 3, k, fd);
    TellCount(s, c, 4, k, fd);
  }

  /** 1 when `d` becomes registered from `s` to `t`, otherwise 0. */
  function Registers(s: State, t: State, d: Client): nat {
    if !s.Rec(d).registered && t.Rec(d).registered then 1 else 0
  }

  /** The replies of one step carry a welcome for `d` exactly when it registers `d`. */
  ghost predicate WelcomesRight(s: State, o: Out, d: Client, k: nat) {
    Count(LinesTo(o.r, d.socketFd), k) == Registers(s, o.s, d)
  }

  lemma RegisterWelcomes(s: State, c: Client, d: Client, k: nat)
    requires 1 <= k <= 4 && c in s.clients && d in s.clients && (d.socketFd == c.socketFd ==> d == c)
    ensures WelcomesRight(s, Register(s, c), d, k)
  {
    BurstCount(s, c, k, d.socketFd);
  }

  lemma RefuseWelcomes(s: State, c: Client, num: nat, msg: string, d: Client, k: nat)
    requires 1 <= k <= 4 && Known(num) && num > 4
    ensures WelcomesRight(s, Refuse(s, c, num, msg), d, k)
  {
    QuietCount(Tell(s, c, num, msg), d.socketFd, k);
  }

  lemma PassWelcomes(s: State, c: Client, params: seq<string>, d: Client, k: nat)
    requires Inv(s) && c in s.clients && d in s.clients && 1 <= k <= 4
    ensures WelcomesRight(s, Pass(s, c, params), d, k)
  {
    RefuseWelcomes(s, c, 461, "PASS", d, k);
    RefuseWelcomes(s, c, 462, "", d, k);
    RefuseWelcomes(s, c, 464, "", d, k);
    RegisterWelcomes(s.WithRec(c, s.Rec(c).(passAccepted := true)), c, d, k);
  }

  lemma NickWelcomes(s: State, c: Client, params: seq<string>, d: Client, k: nat)
    requires Inv(s) && c in s.clients && d in s.clients && 1 <= k <= 4
    ensures WelcomesRight(s, Nick(s, c, params), d, k)
  {
    hide ValidNick, Welcome, LinesTo, Count;
    RefuseWelcomes(s, c, 431, "", d, k);
    if |params| >= 1 {
      RefuseWelcomes(s, c, 432, params[0], d, k);
      RefuseWelcomes(s, c, 433, params[0], d, k);
      RegisterWelcomes(UpdateNickname(s, c, params[0]).0, c, d, k);
    }
  }

  lemma UserWelcomes(s: State, c: Client, params: seq<string>, d: Client, k: nat)
    requires Inv(s) && c in s.clients && d in s.clients && 1 <= k <= 4
    ensures WelcomesRight(s, User(s, c, params), d, k)
  {
    RefuseWelcomes(s, c, 461, "USER", d, k);
    RefuseWelcomes(s, c, 462, "", d, k);
    if |params| >= 4 {
      RegisterWelcomes(s.WithRec(c, s.Rec(c).(username := params[0], realname := params[3])), c, d, k);
    }
  }

  // ----- Reading MODE announcements --------------------------------------------------------------

  function Listed<T>(o: Option<T>): seq<T> {
    match o
    case None => []
    case Some(x) => [x]
  }

  /** What the lines say that read as announcements of mode changes: the channels and the changes. */
  function ModeLines(lines: seq<string>): seq<(string, seq<Event>)> {
    if lines == [] then [] else Listed(ReadMode(lines[0])) + ModeLines(lines[1..])
  }

  lemma {:induction false} ModeLinesConcat(a: seq<string>, b: seq<string>)
    ensures ModeLines(a + b) == ModeLines(a) + ModeLines(b)
  {
    hide ReadMode, Listed;
    if a == [] {
      assert a + b == b;
    } else {
      ModeLinesConcat(a[1..], b);
      assert (a + b)[0] == a[0] && (a + b)[1..] == a[1..] + b;
      var head := Listed(ReadMode(a[0]));
      assert head + (ModeLines(a[1..]) + ModeLines(b)) == head + ModeLines(a[1..]) + ModeLines(b);
    }
  }

  lemma {:induction false} PlainLines(bodies: seq<Body>)
    requires forall b | b in bodies :: ProperHead(b) && !b.ModeSet?
    ensures ModeLines(Lines(bodies)) == []
  {
    hide ReadMode, Wire;
    if bodies == [] {
    } else {
      assert bodies[0] in bodies;
      PlainIsNotMode(bodies[0]);
      PlainLines(bodies[1..]);
    }
  }

  /** None of these replies can be taken for a MODE announcement. */
  ghost predicate NotMode(r: seq<Reply>) {
    forall x | x in r :: ProperHead(x.body) && !x.body.ModeSet?
  }

  lemma NoModeLines(r: seq<Reply>, fd: int)
    requires NotMode(r)
    ensures ModeLines(LinesTo(r, fd)) == []
  {
    ForFdMembers(r, fd);
    forall b | b in ForFd(r, fd) ensures ProperHead(b) && !b.ModeSet? {
      assert Reply(fd, b) in r;
    }
    PlainLines(ForFd(r, fd));
  }

  lemma OneModeLine(line: string)
    ensures ModeLines([line]) == Listed(ReadMode(line))
  {
    hide ReadMode;
    assert [line][1..] == [];
    assert ModeLines([]) == [];
  }

  ghost predicate Hears(s: State, n: string, fd: int)
    requires n in s.channels
  {
    exists d | d in s.channels[n].members :: d.socketFd == fd
  }

  /** What one connection reads of the copies of a MODE. */
  lemma CopiesRead(s: State, c: Client, n: string, params: seq<string>, fd: int)
    requires Inv(s) && TextsOk(s) && c in s.clients && AllFree(params, '\n') && GoodParams(params)
    requires 1 < |params| <= MAX_PARAMS && n in s.channels && Changes(s, c, n, params) != []
    ensures var events := Changes(s, c, n, params);
      ModeLines(LinesTo(Deliver(s.channels[n].members, null, ModeSet(Prefix(s, c), n, Announcement(events))), fd))
      == if Hears(s, n, fd) then Listed(Told(n, AsRead(events))) else []
  {
    hide ReadMode, Wire, Interpret, TextsOk, AsRead, Readable;
    var b := ModeSet(Prefix(s, c), n, Announcement(Changes(s, c, n, params)));
    assert ChannelOk(s, n, s.channels[n]);
    ModeReadsIff(s, c, n, params);
    DeliverExact(s.channels[n].members, null, b, fd);
    assert Lines([b]) == [Wire(b)] by { assert [b][1..] == []; }
    OneModeLine(Wire(b));
  }

  /** What one connection reads of a MODE by an operator: one announcement if the connection is a member's and there
      is any change. It is that of the changes exactly when the message is readable. */
  lemma ModeChangesRead(s: State, c: Client, n: string, params: seq<string>, fd: int)
    requires Inv(s) && TextsOk(s) && c in s.clients && AllFree(params, '\n') && GoodParams(params)
    requires 1 < |params| <= MAX_PARAMS && n in s.channels
    ensures var events := Changes(s, c, n, params);
      && ModeLines(LinesTo(ModeChanges(s, c, n, params).r, fd))
         == (if events != [] && Hears(s, n, fd) then Listed(Told(n, AsRead(events))) else [])
      && (events != [] ==> (AsRead(events) == Some(events) <==> Readable(s, c, s.channels[n], params)))
  {
    hide Interpret, ReadMode, Wire, TextsOk, AsRead, Readable, Hears;
    var run := Interpret(s, c, params, Start(s.channels[n]), params[1]);
    ModeReplies(s, c, n, params);
    NoModeLines(run.replies, fd);
    ReadableIff(s, c, s.channels[n], params);
    if run.events == [] {
      assert run.replies + [] == run.replies;
    } else {
      var copies := Deliver(run.ch.members, null, ModeSet(Prefix(s, c), n, Announcement(run.events)));
      LinesToConcat(run.replies, copies, fd);
      ModeLinesConcat(LinesTo(run.replies, fd), LinesTo(copies, fd));
      CopiesRead(s, c, n, params, fd);
    }
  }

  // ----- Following MODE announcements ------------------------------------------------------------

  /** What a reader makes of its copy of the modes of channel `n` when it is told all this. */
  function TrackAll(m: ModesRec, said: seq<(string, seq<Event>)>, n: string): ModesRec
    decreases |said|
  {
    if said == [] then m else TrackAll(if said[0].0 == n then Track(m, said[0].1) else m, said[1..], n)
  }

  lemma {:induction false} TrackAllConcat(m: ModesRec, a: seq<(string, seq<Event>)>, b: seq<(string, seq<Event>)>,
                                       n: string)
    ensures TrackAll(m, a + b, n) == TrackAll(TrackAll(m, a, n), b, n)
    decreases |a|
  {
    if a == [] {
      assert a + b == b;
    } else {
      TrackAllConcat(if a[0].0 == n then Track(m, a[0].1) else m, a[1..], b, n);
      assert (a + b)[1..] == a[1..] + b && (a + b)[0] == a[0];
    }
  }

  /** What a reader of these lines makes of its copy of the modes of channel `n`. */
  function Follow(m: ModesRec, lines: seq<string>, n: string): ModesRec {
    TrackAll(m, ModeLines(lines), n)
  }

  lemma FollowConcat(m: ModesRec, a: seq<string>, b: seq<string>, n: string)
    ensures Follow(m, a + b, n) == Follow(Follow(m, a, n), b, n)
  {
    ModeLinesConcat(a, b);
    TrackAllConcat(m, ModeLines(a), ModeLines(b), n);
  }

  lemma FollowQuiet(m: ModesRec, r: seq<Reply>, fd: int, n: string)
    requires NotMode(r)
    ensures Follow(m, LinesTo(r, fd), n) == m
  {
    NoModeLines(r, fd);
  }

  /** What reading the announcement, when there is one, makes of a copy of the modes of channel `n`. */
  lemma TrackTold(m: ModesRec, n: string, read: Option<seq<Event>>, watched: string)
    ensures TrackAll(m, Listed(Told(n, read)), watched)
         == if n == watched && read.Some? then Track(m, read.value) else m
  {
    hide Track;
    if read.Some? {
      assert [(n, read.value)][1..] == [];
    }
  }

  /** The MODE makes no changes, or they are read as they are, or misreading them is harmless. */
  ghost predicate Conveyed(s: State, c: Client, n: string, params: seq<string>)
    requires n in s.channels && |params| > 1
  {
    var events := Changes(s, c, n, params);
    events == [] || Readable(s, c, s.channels[n], params) || Harmless(s.channels[n].modes, events)
  }

  /** A member who follows what it reads of a MODE ends with the right modes of the channel it watches exactly
      when the MODE is on another channel or is conveyed. Otherwise its copy stays as it was, or is wrong in the
      key alone or in the limit alone. */
  lemma ModeFollowed(s: State, c: Client, n: string, params: seq<string>, d: Client, watched: string)
    requires Inv(s) && TextsOk(s) && c in s.clients && AllFree(params, '\n') && GoodParams(params)
    requires 1 < |params| <= MAX_PARAMS && n in s.channels && watched in s.channels && d in s.channels[watched].members
    ensures var o, m := ModeChanges(s, c, n, params), s.channels[watched].modes;
      var copy, modes := Follow(m, LinesTo(o.r, d.socketFd), watched), o.s.channels[watched].modes;
      && (copy == modes <==> watched != n || Conveyed(s, c, n, params))
      && (copy == m || NearlyRight(copy, modes))
  {
    hide Interpret, ReadMode, Inv, TextsOk, Readable, AsRead, Harmless, NearlyRight;
    var m, events := s.channels[watched].modes, Changes(s, c, n, params);
    ModeChangesRead(s, c, n, params, d.socketFd);
    ModeReplies(s, c, n, params);
    TrackReplays(s.byNick, s.channels[n], events);
    TrackTold(m, n, AsRead(events), watched);
    if watched == n {
      assert Hears(s, n, d.socketFd);
      CopyOfChanges(s, c, n, params);
    }
  }

  lemma CopyOfChanges(s: State, c: Client, n: string, params: seq<string>)
    requires Inv(s) && GoodParams(params) && 1 < |params| <= MAX_PARAMS && n in s.channels
    ensures var run, m := Interpret(s, c, params, Start(s.channels[n]), params[1]), s.channels[n].modes;
      && (run.events == [] ==> run.ch.modes == m)
      && (run.events != [] ==>
            && (Copied(m, run.events) == run.ch.modes <==> Conveyed(s, c, n, params))
            && (Copied(m, run.events) == m || NearlyRight(Copied(m, run.events), run.ch.modes)))
  {
    hide Interpret, Readable, Harmless, NearlyRight, Copied;
    CopyRightIff(s, c, s.channels[n], params);
    ReplayFaithful(s, c, params, Start(s.channels[n]), params[1], s.channels[n]);
    TrackReplays(s.byNick, s.channels[n], Changes(s, c, n, params));
  }

  // ----- Who hears a message -----------------------------------------------------------------------

  /** A channel message reaches every member but its sender exactly once, and nobody else. */
  lemma ChannelMessageDelivered(s: State, c: Client, n: string, text: string, fd: int)
    requires Inv(s) && n in s.channels && c in s.channels[n].members
    ensures ForFd(SendOne(s, c, n, text), fd)
         == if exists d | d in s.channels[n].members :: d != c && d.socketFd == fd
            then [PrivMsg(Prefix(s, c), n, text)] else []
  {
    assert ChannelOk(s, n, s.channels[n]);
    DeliverExact(s.channels[n].members, c, PrivMsg(Prefix(s, c), n, text), fd);
  }

  /** A private message reaches the connection that holds the nick, once, and nobody else. */
  lemma PrivateMessageDelivered(s: State, c: Client, nick: string, text: string, fd: int)
    requires Inv(s) && nick in s.byNick
    ensures ForFd(SendOne(s, c, nick, text), fd)
         == if fd == s.byNick[nick].socketFd then [PrivMsg(Prefix(s, c), nick, text)] else []
  {
    assert ValidNick(nick);
    assert NickStart(nick[0]);
  }
}
