// What a MODE comes to, position by position: which parameter each letter takes, and from that the modes,
// the operators, the announcement and the answers. Nothing here calls the interpreter; it is shown to agree.
module Walks {
  import opened Text
  import opened Parser
  import opened Clients
  import opened Channels
  import opened Replies
  import opened Model
  import opened Mode
  import opened Commands
  import opened Safety
  import opened Answers
  import opened Laws

  // ----- Positions and parameters ------------------------------------------------------------------

  /** Before some position: the sign in force, the next parameter, and whether a key is set. */
  datatype Spot = Spot(adding: bool, next: nat, keyed: bool)

  /** +k, +l, +o and -o take the next parameter if there is one; -k does if a key is set as well. */
  predicate Takes(w: Spot, x: char, count: nat) {
    w.next < count && (x == 'o' || (x == 'l' && w.adding) || (x == 'k' && (w.adding || w.keyed)))
  }

  /** +k needs a parameter, -k a key. */
  predicate KeyMoves(w: Spot, x: char, count: nat) {
    x == 'k' && if w.adding then w.next < count else w.keyed
  }

  /** The spot after one character. */
  function Past(w: Spot, x: char, count: nat): Spot {
    if x == '+' then w.(adding := true)
    else if x == '-' then w.(adding := false)
    else
      Spot(w.adding, if Takes(w, x, count) then w.next + 1 else w.next,
           if KeyMoves(w, x, count) then w.adding else w.keyed)
  }

  /** The spot before the position `i` of the mode string. */
  function SpotAt(params: seq<string>, keyed: bool, i: nat): Spot
    requires |params| > 1 && i <= |params[1]|
  {
    if i == 0 then Spot(true, 2, keyed) else Past(SpotAt(params, keyed, i - 1), params[1][i - 1], |params|)
  }

  // ----- What is set before a position ---------------------------------------------------------------

  /** The sign at the last `letter` before `i`, or `before` when there is none. */
  function FlagAt(params: seq<string>, keyed: bool, i: nat, letter: char, before: bool): bool
    requires |params| > 1 && i <= |params[1]|
  {
    if i == 0 then before
    else if params[1][i - 1] == letter then SpotAt(params, keyed, i - 1).adding
    else FlagAt(params, keyed, i - 1, letter, before)
  }

  /** The position `i` is an o that takes this nick. */
  predicate NamesAt(params: seq<string>, keyed: bool, i: nat, nick: string)
    requires |params| > 1 && i < |params[1]|
  {
    var w := SpotAt(params, keyed, i);
    params[1][i] == 'o' && w.next < |params| && params[w.next] == nick
  }

  /** The sign at the last o before `i` that takes this nick, or `before` when there is none. */
  function OperatorAt(params: seq<string>, keyed: bool, i: nat, nick: string, before: bool): bool
    requires |params| > 1 && i <= |params[1]|
  {
    if i == 0 then before
    else if NamesAt(params, keyed, i - 1, nick) then SpotAt(params, keyed, i - 1).adding
    else OperatorAt(params, keyed, i - 1, nick, before)
  }

  /** The key of the last +k before `i` that takes one, none after the last -k that takes it away, or `before`. */
  function KeyAt(params: seq<string>, keyed: bool, i: nat, before: string): string
    requires |params| > 1 && i <= |params[1]|
  {
    if i == 0 then before
    else
      var w := SpotAt(params, keyed, i - 1);
      if KeyMoves(w, params[1][i - 1], |params|) then (if w.adding then params[w.next] else "")
      else KeyAt(params, keyed, i - 1, before)
  }

  /** The position `i` is a +l that takes a positive number. */
  predicate LimitsAt(params: seq<string>, keyed: bool, i: nat)
    requires |params| > 1 && i < |params[1]|
  {
    var w := SpotAt(params, keyed, i);
    params[1][i] == 'l' && w.adding && w.next < |params| && Atoi(params[w.next]) > 0
  }

  /** Whether a limit is in force: after a +l with a positive number it is, after a -l it is not. */
  function LimitedAt(params: seq<string>, keyed: bool, i: nat, before: bool): bool
    requires |params| > 1 && i <= |params[1]|
  {
    if i == 0 then before
    else if LimitsAt(params, keyed, i - 1) then true
    else if params[1][i - 1] == 'l' && !SpotAt(params, keyed, i - 1).adding then false
    else LimitedAt(params, keyed, i - 1, before)
  }

  /** The number of the last +l with a positive one, or `before`. */
  function NumberAt(params: seq<string>, keyed: bool, i: nat, before: int): int
    requires |params| > 1 && i <= |params[1]|
  {
    if i == 0 then before
    else if LimitsAt(params, keyed, i - 1) then Atoi(params[SpotAt(params, keyed, i - 1).next])
    else NumberAt(params, keyed, i - 1, before)
  }

  // ----- What is announced and answered ----------------------------------------------------------------

  /** The change announced for the position `i`, if there is one: a flag or an operator that differs from what is so
      before, a key or a limit that is set, and one that is there and is taken away. */
  function EventAt(s: State, ch: ChanRec, params: seq<string>, i: nat): seq<Event>
    requires |params| > 1 && i < |params[1]|
  {
    var m, x := ch.modes, params[1][i];
    var keyed := m.channelProtected;
    var w := SpotAt(params, keyed, i);
    var p := if w.next < |params| then params[w.next] else "";
    if x == 'i' then
      (if w.adding != FlagAt(params, keyed, i, 'i', m.inviteOnly) then [Event(w.adding, 'i', "")] else [])
    else if x == 't' then
      (if w.adding != FlagAt(params, keyed, i, 't', m.topicRestricted) then [Event(w.adding, 't', "")] else [])
    else if x == 'k' then
      (if KeyMoves(w, x, |params|) then [Event(w.adding, 'k', if w.adding then p else "")] else [])
    else if x == 'l' then
      (if LimitsAt(params, keyed, i) then [Event(true, 'l', p)]
       else if !w.adding && LimitedAt(params, keyed, i, m.memberLimited) then [Event(false, 'l', "")]
       else [])
    else if x == 'o' && w.next < |params| && p in s.byNick && s.byNick[p] in ch.members then
      (if w.adding != OperatorAt(params, keyed, i, p, s.byNick[p] in ch.operators)
         then [Event(w.adding, 'o', p)] else [])
    else []
  }

  function EventsTo(s: State, ch: ChanRec, params: seq<string>, i: nat): seq<Event>
    requires |params| > 1 && i <= |params[1]|
  {
    if i == 0 then [] else EventsTo(s, ch, params, i - 1) + EventAt(s, ch, params, i - 1)
  }

  /** The answer to the sender for the position `i`, if there is one: 472 for a letter that is none, 401 for a nick
      that is nobody's, 441 for somebody who is not in the channel. */
  function AnswerAt(s: State, c: Client, ch: ChanRec, params: seq<string>, i: nat): seq<Reply>
    requires |params| > 1 && i < |params[1]|
  {
    var x, w, own := params[1][i], SpotAt(params, ch.modes.channelProtected, i), TargetName(s.Rec(c).nickname);
    if x !in {'+', '-', 'i', 't', 'k', 'l', 'o'} then [Reply(c.socketFd, Numeric(own, 472, [x]))]
    else if x != 'o' || w.next >= |params| then []
    else if params[w.next] !in s.byNick then [Reply(c.socketFd, Numeric(own, 401, params[w.next]))]
    else if s.byNick[params[w.next]] !in ch.members then
      [Reply(c.socketFd, Numeric(own, 441, params[w.next] + " " + ch.name))]
    else []
  }

  function AnswersTo(s: State, c: Client, ch: ChanRec, params: seq<string>, i: nat): seq<Reply>
    requires |params| > 1 && i <= |params[1]|
  {
    if i == 0 then [] else AnswersTo(s, c, ch, params, i - 1) + AnswerAt(s, c, ch, params, i - 1)
  }

  // ----- The interpreter agrees -----------------------------------------------------------------------

  ghost predicate SpotAgrees(ch: ChanRec, params: seq<string>, r: Run, i: nat)
    requires |params| > 1 && i <= |params[1]|
  {
    var w, m := SpotAt(params, ch.modes.channelProtected, i), r.ch.modes;
    r.adding == w.adding && r.cursor == w.next && m.channelProtected == w.keyed
  }

  /** The modes before the position `i`. */
  function ModesAt(m: ModesRec, params: seq<string>, i: nat): ModesRec
    requires |params| > 1 && i <= |params[1]|
  {
    var keyed := m.channelProtected;
    ModesRec(
      FlagAt(params, keyed, i, 'i', m.inviteOnly),
      FlagAt(params, keyed, i, 't', m.topicRestricted),
      SpotAt(params, keyed, i).keyed,
      LimitedAt(params, keyed, i, m.memberLimited),
      NumberAt(params, keyed, i, m.maxMember),
      KeyAt(params, keyed, i, m.channelPass))
  }

  /** The members that are operators before the position `i` are those whose nick says so. */
  ghost predicate OperatorsAgree(s: State, ch: ChanRec, params: seq<string>, r: Run, i: nat)
    requires |params| > 1 && i <= |params[1]|
  {
    && r.ch.members == ch.members
    && forall nick | nick in s.byNick && s.byNick[nick] in ch.members ::
      s.byNick[nick] in r.ch.operators
      <==> OperatorAt(params, ch.modes.channelProtected, i, nick, s.byNick[nick] in ch.operators)
  }

  /** Two nicks are two clients. */
  ghost predicate NicksApart(s: State) {
    forall a, b | a in s.byNick && b in s.byNick && s.byNick[a] == s.byNick[b] :: a == b
  }

  ghost predicate Agrees(s: State, c: Client, ch: ChanRec, params: seq<string>, r: Run, i: nat)
    requires |params| > 1 && i <= |params[1]|
  {
    && SpotAgrees(ch, params, r, i)
    && r.ch.modes == ModesAt(ch.modes, params, i)
    && OperatorsAgree(s, ch, params, r, i)
    && r.ch.name == ch.name
    && r.events == EventsTo(s, ch, params, i)
    && r.replies == AnswersTo(s, c, ch, params, i)
  }

  lemma SpotTurn(s: State, c: Client, ch: ChanRec, params: seq<string>, r: Run, i: nat)
    requires |params| > 1 && i < |params[1]| && SpotAgrees(ch, params, r, i)
    ensures SpotAgrees(ch, params, Turn(s, c, params, r, params[1][i]), i + 1)
  {
    var w, keyed, x := SpotAt(params, ch.modes.channelProtected, i), ch.modes.channelProtected, params[1][i];
    assert SpotAt(params, keyed, i + 1) == Past(w, x, |params|);
    hide Atoi, SpotAt;
    match x {
      case 'k' =>
      case 'l' =>
      case 'o' =>
      case _ =>
    }
  }

  lemma ModesTurn(s: State, c: Client, ch: ChanRec, params: seq<string>, r: Run, i: nat)
    requires |params| > 1 && i < |params[1]| && SpotAgrees(ch, params, r, i)
    requires r.ch.modes == ModesAt(ch.modes, params, i)
    ensures Turn(s, c, params, r, params[1][i]).ch.modes == ModesAt(ch.modes, params, i + 1)
  {
    hide Atoi;
  }

  lemma OperatorsTurn(s: State, c: Client, ch: ChanRec, params: seq<string>, r: Run, i: nat)
    requires |params| > 1 && i < |params[1]| && SpotAgrees(ch, params, r, i)
    requires NicksApart(s) && OperatorsAgree(s, ch, params, r, i)
    ensures OperatorsAgree(s, ch, params, Turn(s, c, params, r, params[1][i]), i + 1)
  {
    hide Atoi;
  }

  lemma EventsTurn(s: State, c: Client, ch: ChanRec, params: seq<string>, r: Run, i: nat)
    requires |params| > 1 && i < |params[1]| && Agrees(s, c, ch, params, r, i)
    ensures Turn(s, c, params, r, params[1][i]).events == r.events + EventAt(s, ch, params, i)
  {
    hide Atoi, SpotAt, FlagAt, OperatorAt, KeyAt, LimitedAt, NumberAt, EventsTo, AnswersTo;
    match params[1][i] {
      case 'i' =>
      case 't' =>
      case 'k' =>
      case 'l' =>
      case 'o' => OperatorEvent(s, c, ch, params, r, i);
      case _ =>
    }
  }

  lemma OperatorEvent(s: State, c: Client, ch: ChanRec, params: seq<string>, r: Run, i: nat)
    requires |params| > 1 && i < |params[1]| && Agrees(s, c, ch, params, r, i) && params[1][i] == 'o'
    ensures Op(s, c, params, r).events == r.events + EventAt(s, ch, params, i)
  {
    hide SpotAt, OperatorAt, EventsTo, AnswersTo, ModesAt;
  }

  lemma AnswersTurn(s: State, c: Client, ch: ChanRec, params: seq<string>, r: Run, i: nat)
    requires |params| > 1 && i < |params[1]| && Agrees(s, c, ch, params, r, i)
    ensures var t := Turn(s, c, params, r, params[1][i]);
      t.replies == r.replies + AnswerAt(s, c, ch, params, i) && t.ch.name == ch.name
  {
    hide Atoi, SpotAt, ModesAt, OperatorAt, EventsTo, AnswersTo;
    match params[1][i] {
      case 'k' =>
      case 'l' =>
      case 'o' => OperatorAnswer(s, c, ch, params, r, i);
      case _ =>
    }
  }

  lemma OperatorAnswer(s: State, c: Client, ch: ChanRec, params: seq<string>, r: Run, i: nat)
    requires |params| > 1 && i < |params[1]| && Agrees(s, c, ch, params, r, i) && params[1][i] == 'o'
    ensures var t := Op(s, c, params, r);
      t.replies == r.replies + AnswerAt(s, c, ch, params, i) && t.ch.name == ch.name
  {
    hide SpotAt, OperatorAt, EventsTo, AnswersTo, ModesAt;
  }

  lemma StartAgrees(s: State, c: Client, ch: ChanRec, params: seq<string>)
    requires |params| > 1
    ensures Agrees(s, c, ch, params, Start(ch), 0)
  {
  }

  lemma AgreesTurn(s: State, c: Client, ch: ChanRec, params: seq<string>, r: Run, i: nat)
    requires NicksApart(s) && |params| > 1 && i < |params[1]| && Agrees(s, c, ch, params, r, i)
    ensures Agrees(s, c, ch, params, Turn(s, c, params, r, params[1][i]), i + 1)
  {
    hide Turn, SpotAgrees, ModesAt, OperatorsAgree, EventAt, AnswerAt, NicksApart;
    SpotTurn(s, c, ch, params, r, i);
    ModesTurn(s, c, ch, params, r, i);
    OperatorsTurn(s, c, ch, params, r, i);
    EventsTurn(s, c, ch, params, r, i);
    AnswersTurn(s, c, ch, params, r, i);
  }

  /** The interpreter and the positions agree, after any number of characters. */
  lemma {:induction false} WalkAgrees(s: State, c: Client, ch: ChanRec, params: seq<string>, i: nat)
    requires NicksApart(s) && |params| > 1 && i <= |params[1]|
    ensures Agrees(s, c, ch, params, Interpret(s, c, params, Start(ch), params[1][..i]), i)
  {
    hide Turn, Agrees, NicksApart;
    var str := params[1];
    if i == 0 {
      assert str[..0] == "";
      StartAgrees(s, c, ch, params);
    } else {
      WalkAgrees(s, c, ch, params, i - 1);
      assert str[..i] == str[..i - 1] + [str[i - 1]];
      InterpretStep(s, c, params, Start(ch), str[..i - 1], str[i - 1]);
      AgreesTurn(s, c, ch, params, Interpret(s, c, params, Start(ch), str[..i - 1]), i - 1);
    }
  }

  // ----- Any MODE by an operator ------------------------------------------------------------------------

  lemma NicksAreApart(s: State)
    requires Inv(s)
    ensures NicksApart(s)
  {
    forall a, b | a in s.byNick && b in s.byNick && s.byNick[a] == s.byNick[b] ensures a == b {
      assert s.clients[s.byNick[a]].nickname == a && s.clients[s.byNick[b]].nickname == b;
    }
  }

  lemma MemberHasNick(s: State, n: string, d: Client)
    requires Inv(s) && n in s.channels && d in s.channels[n].members
    ensures d in s.clients && s.clients[d].nickname in s.byNick && s.byNick[s.clients[d].nickname] == d
  {
    assert ChannelOk(s, n, s.channels[n]);
  }

  /** What an operator's MODE makes of its channel: the modes are those after the last position, and a member operates
      the channel exactly when the last o that takes its nick was under +, or there was none and it did before. */
  lemma ModeEffect(s: State, c: Client, n: string, params: seq<string>, d: Client)
    requires Inv(s) && n in s.channels && |params| > 1 && d in s.channels[n].members
    ensures var o, ch, k := ModeChanges(s, c, n, params), s.channels[n], |params[1]|;
      var now := o.s.channels[n];
      && o.s == s.WithChannel(n, ch.(modes := ModesAt(ch.modes, params, k), operators := now.operators))
      && now.operators <= ch.members
      && (d in now.operators <==>
            OperatorAt(params, ch.modes.channelProtected, k, s.clients[d].nickname, d in ch.operators))
  {
    hide Interpret, Inv, Deliver, ModesAt, OperatorAt;
    var ch, k, nick := s.channels[n], |params[1]|, s.Rec(d).nickname;
    MemberHasNick(s, n, d);
    NicksAreApart(s);
    OperatorsAreMembers(s, n);
    WalkAgrees(s, c, ch, params, k);
    assert params[1][..k] == params[1];
    InterpretFrame(s, c, params, Start(ch), params[1]);
    assert s.byNick[nick] == d;
  }

  /** What a connection hears of an operator's MODE: the answers, if it is the sender's, and then the announcement
      of all changes once, if there is any and it is a member's. */
  lemma ModeHeard(s: State, c: Client, n: string, params: seq<string>, to: int)
    requires Inv(s) && n in s.channels && |params| > 1
    ensures var o, ch, k := ModeChanges(s, c, n, params), s.channels[n], |params[1]|;
      var events := EventsTo(s, ch, params, k);
      ForFd(o.r, to)
      == ForFd(AnswersTo(s, c, ch, params, k), to)
         + if events == [] then [] else OnceEach(ch.members, ModeSet(Prefix(s, c), n, Announcement(events)), to)
  {
    hide Interpret, Inv, Deliver, OnceEach, EventsTo, AnswersTo, Announcement;
    var ch, k := s.channels[n], |params[1]|;
    NicksAreApart(s);
    MembersAreClients(s, n);
    WalkAgrees(s, c, ch, params, k);
    assert params[1][..k] == params[1];
    var events, answers := EventsTo(s, ch, params, k), AnswersTo(s, c, ch, params, k);
    var body := ModeSet(Prefix(s, c), n, Announcement(events));
    InterpretFrame(s, c, params, Start(ch), params[1]);
    DeliveredOnceEach(s, ch.members, body, to);
    ForFdConcat(answers, if events == [] then [] else Deliver(ch.members, null, body), to);
  }

  lemma OperatorDispatched(s: State, fd: int, m: Message)
    requires Inv(s) && fd in s.byFd && m.command == "MODE" && |m.params| > 1 && m.params[0] in s.channels
    requires s.byFd[fd] in s.channels[m.params[0]].operators
    ensures Dispatch(s, fd, m) == ModeChanges(s, s.byFd[fd], m.params[0], m.params)
  {
    var c, n := s.byFd[fd], m.params[0];
    CommandNames(m.command);
    OperatorFacts(s, c, n);
    assert ChannelOk(s, n, s.channels[n]);
    hide Inv, ModeChanges;
    ModeDispatched(s, fd, m);
  }

  /** A MODE by an operator, whatever its parameters, from the positions of its mode string alone. */
  lemma ModeExact(s: State, fd: int, m: Message, d: Client, to: int)
    requires Inv(s) && fd in s.byFd && m.command == "MODE" && |m.params| > 1 && m.params[0] in s.channels
    requires s.byFd[fd] in s.channels[m.params[0]].operators && d in s.channels[m.params[0]].members
    ensures var o, c, n := Dispatch(s, fd, m), s.byFd[fd], m.params[0];
      var ch, k := s.channels[n], |m.params[1]|;
      var events := EventsTo(s, ch, m.params, k);
      && n in o.s.channels && o.s.channels[n].operators <= ch.members
      && o.s == s.WithChannel(n, ch.(modes := ModesAt(ch.modes, m.params, k), operators := o.s.channels[n].operators))
      && (d in o.s.channels[n].operators <==>
            OperatorAt(m.params, ch.modes.channelProtected, k, s.clients[d].nickname, d in ch.operators))
      && ForFd(o.r, to)
         == ForFd(AnswersTo(s, c, ch, m.params, k), to)
            + if events == [] then [] else OnceEach(ch.members, ModeSet(Prefix(s, c), n, Announcement(events)), to)
  {
    hide Inv, EventsTo, AnswersTo, ModesAt, OperatorAt, OnceEach, Announcement, ModeChanges;
    var c, n := s.byFd[fd], m.params[0];
    MemberHasNick(s, n, d);
    OperatorFacts(s, c, n);
    OperatorDispatched(s, fd, m);
    ModeEffect(s, c, n, m.params, d);
    ModeHeard(s, c, n, m.params, to);
  }

  // ----- The last position that counts ------------------------------------------------------------------

  /** The last o that takes a nick decides; where there is none, nothing does. */
  lemma {:induction false} LastNameDecides(params: seq<string>, keyed: bool, k: nat, nick: string, before: bool, i: nat)
    requires |params| > 1 && i < k <= |params[1]| && NamesAt(params, keyed, i, nick)
    requires forall j | i < j < k :: !NamesAt(params, keyed, j, nick)
    ensures OperatorAt(params, keyed, k, nick, before) == SpotAt(params, keyed, i).adding
  {
    if k > i + 1 {
      LastNameDecides(params, keyed, k - 1, nick, before, i);
    }
  }

  lemma {:induction false} NeverNamed(params: seq<string>, keyed: bool, k: nat, nick: string, before: bool)
    requires |params| > 1 && k <= |params[1]| && forall j | 0 <= j < k :: !NamesAt(params, keyed, j, nick)
    ensures OperatorAt(params, keyed, k, nick, before) == before
  {
    if k > 0 {
      NeverNamed(params, keyed, k - 1, nick, before);
    }
  }

  /** The last k that sets or takes away a key decides. */
  lemma {:induction false} LastKeyDecides(params: seq<string>, m: ModesRec, k: nat, i: nat)
    requires |params| > 1 && i < k <= |params[1]|
    requires KeyMoves(SpotAt(params, m.channelProtected, i), params[1][i], |params|)
    requires forall j | i < j < k :: !KeyMoves(SpotAt(params, m.channelProtected, j), params[1][j], |params|)
    ensures var w, now := SpotAt(params, m.channelProtected, i), ModesAt(m, params, k);
      && now.channelProtected == w.adding
      && (w.adding ==> w.next < |params| && now.channelPass == params[w.next])
      && (!w.adding ==> now.channelPass == "")
  {
    if k > i + 1 {
      LastKeyDecides(params, m, k - 1, i);
    }
  }

  /** The last +l with a positive number, or -l, decides; the number is that of the +l. */
  lemma {:induction false} LastLimitDecides(params: seq<string>, m: ModesRec, k: nat, i: nat)
    requires |params| > 1 && i < k <= |params[1]|
    requires LimitsAt(params, m.channelProtected, i)
      || (params[1][i] == 'l' && !SpotAt(params, m.channelProtected, i).adding)
    requires forall j | i < j < k :: !LimitsAt(params, m.channelProtected, j)
    requires forall j | i < j < k :: params[1][j] == 'l' ==> SpotAt(params, m.channelProtected, j).adding
    ensures var w, now := SpotAt(params, m.channelProtected, i), ModesAt(m, params, k);
      && now.memberLimited == w.adding
      && (w.adding ==> w.next < |params| && now.maxMember == Atoi(params[w.next]))
  {
    hide Atoi;
    if k > i + 1 {
      LastLimitDecides(params, m, k - 1, i);
    }
  }
}
