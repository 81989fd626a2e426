// Concrete lines and runs: a channel operator from an empty server, and MODE lines whose announcement
// does not read back.
module Witnesses {
  import opened Text
  import opened Parser
  import opened Clients
  import opened Channels
  import opened Replies
  import opened Model
  import opened Mode
  import opened Reading
  import opened Commands
  import opened Safety
  import opened Answers
  import opened Delivery
  import opened Laws
  import opened Runs

  // ----- Lines -----------------------------------------------------------------------------------

  /** The line of a message whose command is written in upper case. */
  lemma LineOf(m: Message)
    requires m.command in {"PASS", "NICK", "USER", "JOIN", "MODE"}
    requires |m.params| <= MAX_PARAMS && GoodParams(m.params)
    ensures Parsed(Print(m)) == m
  {
    RoundTrip(m);
  }

  lemma {:induction false} PrintParamsFree(params: seq<string>, c: char)
    requires AllFree(params, c) && c != ' ' && c != ':'
    ensures Free(PrintParams(params), c)
  {
    if params == [] {
    } else {
      assert params[0] in params;
      PrintParamsFree(params[1..], c);
    }
  }

  // ----- Keys that do not read back --------------------------------------------------------------

  function KeyMessage(n: string, key: string): Message {
    Message("MODE", [n, "+k", key])
  }

  lemma KeyLine(n: string, key: string)
    requires ValidChannelName(n) && Free(key, '\n')
    ensures Parsed(Print(KeyMessage(n, key))) == KeyMessage(n, key) && FromLine(KeyMessage(n, key))
  {
    var m := KeyMessage(n, key);
    assert Middle(n) && Middle("+k");
    NamesAreLines(n);
    LineOf(m);
  }

  /** What the loop makes of "+k" and a key. */
  lemma KeyRun(s: State, c: Client, ch: ChanRec, key: string)
    ensures var params := [ch.name, "+k", key];
      && Interpret(s, c, params, Start(ch), "+k")
         == Run(ch.(modes := ch.modes.(channelProtected := true, channelPass := key)),
               true, 3, [Event(true, 'k', key)], [])
      && TakesLastAt(s, c, ch, params, 1)
  {
    var params := [ch.name, "+k", key];
    var str, start := "+k", Start(ch);
    assert str[..1] == "" + ['+'] && str == str[..1] + ['k'];
    InterpretStep(s, c, params, start, "", '+');
    InterpretStep(s, c, params, start, str[..1], 'k');
  }

  /** What a reader makes of a key: the one parameter it comes to on the rest of a line, if it is one. */
  lemma KeyRead(key: string)
    ensures var words := Params(Optional(" ", key), MAX_PARAMS - 2);
      && AsRead([Event(true, 'k', key)]) == (if |words| == 1 then Some([Event(true, 'k', words[0])]) else None)
      && (words == [key] <==> Middle(key))
  {
    hide Params, Middle;
    var events := [Event(true, 'k', key)];
    assert events[1..] == [];
    assert ParamWords(events) == [key] + ParamWords([]);
    assert ParamTail(events) == Optional(" ", key);
    AsReadWords(events);
    ParamAlone(key, MAX_PARAMS - 2);
    var words := ReadWords(events);
    if |words| == 1 {
      assert words[1..] == [];
      assert events[0] == Event(true, 'k', key);
      assert Refill([], words[1..]) == [];
      assert Refill(events, words) == [Event(true, 'k', words[0])] + Refill(events[1..], words[1..]);
      assert Refill(events, words) == [Event(true, 'k', words[0])];
    }
  }

  /** An operator sets a key that is empty, has a space in it, or starts with a colon: the channel is protected with
      that key, and a member's copy of the modes has the one parameter the key comes to instead, or stays as it was
      when there is none or more than one. It is wrong unless it was right already and stays. */
  lemma BadKeyIsLost(s: State, c: Client, n: string, key: string, d: Client)
    requires Good(s) && n in s.channels && c in s.channels[n].operators && d in s.channels[n].members
    requires !Middle(key) && Free(key, '\n')
    ensures var o, m := Process(s, c.socketFd, Print(KeyMessage(n, key))), s.channels[n].modes;
      var words := Params(Optional(" ", key), MAX_PARAMS - 2);
      && n in o.s.channels
      && o.s.channels[n].modes == m.(channelProtected := true, channelPass := key)
      && CopyAfter(m, o, n, d) == (if |words| == 1 then m.(channelProtected := true, channelPass := words[0]) else m)
      && (Followed(s, o, n, d) <==> |words| != 1 && m.channelProtected && m.channelPass == key)
  {
    hide Interpret, ReadMode, AsRead, Params;
    var m, ch := KeyMessage(n, key), s.channels[n];
    assert ChannelOk(s, n, ch);
    KeyLine(n, key);
    KeyRun(s, c, ch, key);
    CommandNames(m.command);
    OperatorFacts(s, c, n);
    assert s.byFd[c.socketFd] == c && s.Rec(c).registered;
    ModeDispatched(s, c.socketFd, m);
    ModeFaithful(s, c.socketFd, m, d.socketFd);
    KeyRead(key);
    TrackTold(ch.modes, n, AsRead([Event(true, 'k', key)]), n);
    var words := Params(Optional(" ", key), MAX_PARAMS - 2);
    if |words| == 1 {
      TrackKey(ch.modes, words[0]);
    }
  }

  lemma TrackKey(m: ModesRec, key: string)
    ensures Track(m, [Event(true, 'k', key)]) == m.(channelProtected := true, channelPass := key)
  {
    assert [Event(true, 'k', key)][1..] == [];
  }

  lemma KeyText(key: string)
    ensures Print(KeyMessage("#c", key)) == "MODE #c +k :" + key
  {
    var params := ["#c", "+k", key];
    assert params[1..] == ["+k", key] && params[1..][1..] == [key];
    assert PrintParams([key]) == " :" + key;
    assert PrintParams(["+k", key]) == " " + "+k" + (" :" + key) == " +k :" + key;
    assert PrintParams(params) == " " + "#c" + (" +k :" + key) == " #c +k :" + key;
    assert "MODE" + (" #c +k :" + key) == "MODE #c +k :" + key;
  }

  /** A key that is lost: the line "MODE #c +k :". */
  lemma EmptyKeyIsLost(s: State, c: Client, d: Client)
    requires Good(s) && "#c" in s.channels && c in s.channels["#c"].operators && d in s.channels["#c"].members
    requires !s.channels["#c"].modes.channelProtected
    ensures var o := Process(s, c.socketFd, "MODE #c +k :");
      && "#c" in o.s.channels && o.s.channels["#c"].modes.channelProtected
      && CopyAfter(s.channels["#c"].modes, o, "#c", d) == s.channels["#c"].modes
  {
    hide Good, Process, CopyAfter, Followed, Print;
    BadKeyIsLost(s, c, "#c", "", d);
    KeyText("");
    assert "MODE #c +k :" + "" == "MODE #c +k :";
  }

  /** A key that is misread: with the line "MODE #c +k ::x" the key is ":x", and every member reads "x". */
  lemma ColonKeyIsMisread(s: State, c: Client, d: Client)
    requires Good(s) && "#c" in s.channels && c in s.channels["#c"].operators && d in s.channels["#c"].members
    ensures var o, m := Process(s, c.socketFd, "MODE #c +k ::x"), s.channels["#c"].modes;
      && "#c" in o.s.channels && o.s.channels["#c"].modes == m.(channelProtected := true, channelPass := ":x")
      && CopyAfter(m, o, "#c", d) == m.(channelProtected := true, channelPass := "x")
  {
    hide Good, Process, CopyAfter, Followed, Print;
    ColonParam();
    BadKeyIsLost(s, c, "#c", ":x", d);
    KeyText(":x");
    assert "MODE #c +k :" + ":x" == "MODE #c +k ::x";
  }

  lemma ColonParam()
    ensures Params(Optional(" ", ":x"), MAX_PARAMS - 2) == ["x"]
  {
    assert Optional(" ", ":x") == " :x";
    assert " :x"[1..] == ":x" && ":x"[1..] == "x";
    assert AfterSpaces(" :x") == AfterSpaces(":x") == ":x";
  }

  // ----- A run to a channel operator ---------------------------------------------------------------

  /** The state of a server with one client, with this record. */
  function Alone(password: string, obj: Client, r: ClientRec): State {
    State(password, map[obj := r], map[obj.socketFd := obj],
          if r.nickname == "" then map[] else map[r.nickname := obj], map[])
  }

  const REGISTERED := ClientRec("u", "a", "r", true, true)

  lemma StepPass(password: string, obj: Client)
    ensures Pass(Alone(password, obj, NEW_CLIENT), obj, [password]).s
         == Alone(password, obj, NEW_CLIENT.(passAccepted := true))
  {
  }

  lemma StepNick(password: string, obj: Client)
    ensures var r := NEW_CLIENT.(passAccepted := true);
      Nick(Alone(password, obj, r), obj, ["a"]).s == Alone(password, obj, r.(nickname := "a"))
  {
    assert "a"[0] == 'a' && ValidNick("a");
  }

  lemma StepUser(password: string, obj: Client)
    ensures var r := NEW_CLIENT.(passAccepted := true, nickname := "a");
      User(Alone(password, obj, r), obj, ["u", "0", "*", "r"]).s == Alone(password, obj, REGISTERED)
  {
  }

  lemma StepJoin(password: string, obj: Client)
    ensures var s := Alone(password, obj, REGISTERED);
      Commands.Join(s, obj, ["#c"]).s == s.WithChannel("#c", Created("#c", obj))
  {
    var s := Alone(password, obj, REGISTERED);
    SplitNone("#c", ',');
    assert ["#c"][1..] == [];
    var one := JoinOne(s, obj, "#c", "");
    assert JoinMany(one.s, obj, [], []) == Out(one.s, []);
    assert JoinMany(s, obj, ["#c"], []).s == one.s;
  }

  lemma Dispatched(s: State, obj: Client, m: Message)
    requires obj.socketFd in s.byFd && s.byFd[obj.socketFd] == obj
    requires OpenToAll(CommandOf(m.command)) || s.Rec(obj).registered
    ensures Dispatch(s, obj.socketFd, m) == Execute(s, obj, CommandOf(m.command), m)
  {
    hide Execute;
  }

  /** What a message does when it is sent as a line. */
  lemma Sent(s: State, obj: Client, m: Message)
    requires obj.socketFd in s.byFd && s.byFd[obj.socketFd] == obj
    requires m.command in {"PASS", "NICK", "USER", "JOIN"} && |m.params| <= MAX_PARAMS && GoodParams(m.params)
    requires AllFree(m.params, '\n')
    requires OpenToAll(CommandOf(m.command)) || s.Rec(obj).registered
    ensures var st := Line(obj.socketFd, Print(m));
      Legal(s, st) && Next(s, st).s == Execute(s, obj, CommandOf(m.command), m).s
  {
    hide Execute, GoodParams, OpenToAll, Dispatch, Parsed;
    LineOf(m);
    PrintParamsFree(m.params, '\n');
    Dispatched(s, obj, m);
  }

  /** One more line in a run, sent by `obj`. */
  lemma OneMore(start: State, q: seq<Step>, s: State, obj: Client, m: Message, t: State)
    requires LegalRun(start, q) && After(start, q) == s
    requires obj.socketFd in s.byFd && s.byFd[obj.socketFd] == obj
    requires m.command in {"PASS", "NICK", "USER", "JOIN"} && |m.params| <= MAX_PARAMS && GoodParams(m.params)
    requires AllFree(m.params, '\n')
    requires OpenToAll(CommandOf(m.command)) || s.Rec(obj).registered
    requires Execute(s, obj, CommandOf(m.command), m).s == t
    ensures var q' := q + [Line(obj.socketFd, Print(m))]; LegalRun(start, q') && After(start, q') == t
  {
    hide Execute, LegalRun, After, Legal, Next, GoodParams, AllFree, OpenToAll;
    Sent(s, obj, m);
    AfterAppend(start, q, Line(obj.socketFd, Print(m)));
  }

  lemma Accepted(password: string, obj: Client) returns (q: seq<Step>)
    ensures LegalRun(NewServer(password), q)
    ensures After(NewServer(password), q) == Alone(password, obj, NEW_CLIENT)
  {
    hide Process;
    q := [Accept(obj.socketFd, obj)];
    assert q[1..] == [];
  }

  ghost predicate Leads(password: string, q: seq<Step>, s: State) {
    LegalRun(NewServer(password), q) && After(NewServer(password), q) == s
  }

  lemma MorePass(password: string, obj: Client, q: seq<Step>) returns (q': seq<Step>)
    requires Free(password, '\n') && Leads(password, q, Alone(password, obj, NEW_CLIENT))
    ensures Leads(password, q', Alone(password, obj, NEW_CLIENT.(passAccepted := true)))
  {
    hide Pass, LegalRun, After;
    var m := Message("PASS", [password]);
    CommandNames(m.command);
    StepPass(password, obj);
    OneMore(NewServer(password), q, Alone(password, obj, NEW_CLIENT), obj, m,
            Alone(password, obj, NEW_CLIENT.(passAccepted := true)));
    q' := q + [Line(obj.socketFd, Print(m))];
  }

  lemma MoreNick(password: string, obj: Client, q: seq<Step>) returns (q': seq<Step>)
    requires Leads(password, q, Alone(password, obj, NEW_CLIENT.(passAccepted := true)))
    ensures Leads(password, q', Alone(password, obj, NEW_CLIENT.(passAccepted := true, nickname := "a")))
  {
    hide Nick, LegalRun, After;
    var m, r := Message("NICK", ["a"]), NEW_CLIENT.(passAccepted := true);
    CommandNames(m.command);
    StepNick(password, obj);
    OneMore(NewServer(password), q, Alone(password, obj, r), obj, m, Alone(password, obj, r.(nickname := "a")));
    q' := q + [Line(obj.socketFd, Print(m))];
  }

  lemma MoreUser(password: string, obj: Client, q: seq<Step>) returns (q': seq<Step>)
    requires Leads(password, q, Alone(password, obj, NEW_CLIENT.(passAccepted := true, nickname := "a")))
    ensures Leads(password, q', Alone(password, obj, REGISTERED))
  {
    hide User, LegalRun, After;
    var m, r := Message("USER", ["u", "0", "*", "r"]), NEW_CLIENT.(passAccepted := true, nickname := "a");
    CommandNames(m.command);
    StepUser(password, obj);
    OneMore(NewServer(password), q, Alone(password, obj, r), obj, m, Alone(password, obj, REGISTERED));
    q' := q + [Line(obj.socketFd, Print(m))];
  }

  lemma MoreJoin(password: string, obj: Client, q: seq<Step>) returns (q': seq<Step>)
    requires Leads(password, q, Alone(password, obj, REGISTERED))
    ensures Leads(password, q', Alone(password, obj, REGISTERED).WithChannel("#c", Created("#c", obj)))
  {
    hide Commands.Join, LegalRun, After;
    var m, s := Message("JOIN", ["#c"]), Alone(password, obj, REGISTERED);
    CommandNames(m.command);
    StepJoin(password, obj);
    OneMore(NewServer(password), q, s, obj, m, s.WithChannel("#c", Created("#c", obj)));
    q' := q + [Line(obj.socketFd, Print(m))];
  }

  /** Somebody gets to operate a channel: PASS, NICK, USER and JOIN lead from the empty server to a
      channel with its creator as the operator. */
  lemma OperatorReachable(password: string, obj: Client) returns (q: seq<Step>)
    requires Free(password, '\n')
    ensures Leads(password, q, Alone(password, obj, REGISTERED).WithChannel("#c", Created("#c", obj)))
  {
    hide LegalRun, After, Alone;
    q := Accepted(password, obj);
    q := MorePass(password, obj, q);
    q := MoreNick(password, obj, q);
    q := MoreUser(password, obj, q);
    q := MoreJoin(password, obj, q);
  }

  /** So this happens: after some run from the empty server, the line "MODE #c +k :" of the operator leaves its own
      copy of the modes without the key, and the line "MODE #c +k ::x" with another key. */
  lemma LossIsReachable(password: string, obj: Client) returns (q: seq<Step>)
    requires Free(password, '\n')
    ensures LegalRun(NewServer(password), q)
    ensures var s := After(NewServer(password), q);
      && "#c" in s.channels && obj in s.channels["#c"].members
      && !Followed(s, Process(s, obj.socketFd, "MODE #c +k :"), "#c", obj)
      && !Followed(s, Process(s, obj.socketFd, "MODE #c +k ::x"), "#c", obj)
  {
    hide LegalRun, After, Process, CopyAfter;
    q := OperatorReachable(password, obj);
    NewServerInv(password);
    RunGood(NewServer(password), q);
    EmptyKeyIsLost(After(NewServer(password), q), obj, obj);
    ColonKeyIsMisread(After(NewServer(password), q), obj, obj);
  }
}
