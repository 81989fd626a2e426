// The mode-string interpreter of src/handleMode.cpp as a recursive function, and the string it
// announces.
module Mode {
  import opened Text
  import opened Clients
  import opened Channels
  import opened Replies
  import opened Model

  /** One mode change that took effect, as it is announced. */
  datatype Event = Event(adding: bool, letter: char, param: string)

  /** The variables of the loop: the channel under change, the sign, the parameter cursor,
      the changes made so far, and the error replies so far. */
  datatype Run = Run(ch: ChanRec, adding: bool, cursor: nat, events: seq<Event>, replies: seq<Reply>) {
    function Changed(modes: ModesRec, letter: char, param: string): Run {
      this.(ch := ch.(modes := modes), events := events + [Event(adding, letter, param)])
    }

    function Said(r: seq<Reply>): Run {
      this.(replies := replies + r)
    }
  }

  function Start(ch: ChanRec): Run {
    Run(ch, true, 2, [], [])
  }

  function Key(params: seq<string>, r: Run): Run {
    var m := r.ch.modes;
    if r.adding then
      if r.cursor < |params| then
        r.(cursor := r.cursor + 1)
         .Changed(m.(channelProtected := true, channelPass := params[r.cursor]), 'k', params[r.cursor])
      else r
    else if m.channelProtected then
      r.(cursor := if r.cursor < |params| then r.cursor + 1 else r.cursor)
       .Changed(m.(channelProtected := false, channelPass := ""), 'k', "")
    else r
  }

  function Limit(params: seq<string>, r: Run): Run {
    var m := r.ch.modes;
    if r.adding then
      if r.cursor < |params| then
        var next := r.(cursor := r.cursor + 1);
        var limit := Atoi(params[r.cursor]);
        if limit > 0 then next.Changed(m.(memberLimited := true, maxMember := limit), 'l', params[r.cursor])
        else next
      else r
    else if m.memberLimited then r.Changed(m.(memberLimited := false), 'l', "")
    else r
  }

  function Op(s: State, c: Client, params: seq<string>, r: Run): Run {
    if r.cursor >= |params| then r
    else
      var nick := params[r.cursor];
      var next := r.(cursor := r.cursor + 1);
      if nick !in s.byNick then next.Said(Tell(s, c, 401, nick))
      else
        var target := s.byNick[nick];
        if target !in r.ch.members then next.Said(Tell(s, c, 441, nick + " " + r.ch.name))
        else if r.adding && target !in r.ch.operators then
          next.(ch := r.ch.(operators := r.ch.operators + {target}), events := r.events + [Event(true, 'o', nick)])
        else if !r.adding && target in r.ch.operators then
          next.(ch := r.ch.(operators := r.ch.operators - {target}), events := r.events + [Event(false, 'o', nick)])
        else next
  }

  /** One turn of the loop, on the character `x`. */
  function Turn(s: State, c: Client, params: seq<string>, r: Run, x: char): Run {
    var m := r.ch.modes;
    match x
    case '+' => r.(adding := true)
    case '-' => r.(adding := false)
    case 'i' => if r.adding == m.inviteOnly then r else r.Changed(m.(inviteOnly := r.adding), 'i', "")
    case 't' => if r.adding == m.topicRestricted then r else r.Changed(m.(topicRestricted := r.adding), 't', "")
    case 'k' => Key(params, r)
    case 'l' => Limit(params, r)
    case 'o' => Op(s, c, params, r)
    case _ => r.Said(Tell(s, c, 472, [x]))
  }

  function Interpret(s: State, c: Client, params: seq<string>, r: Run, str: string): Run
    decreases |str|
  {
    if str == "" then r else Interpret(s, c, params, Turn(s, c, params, r, str[0]), str[1..])
  }

  // ----- The interpreter -----------------------------------------------------------------

  /** Interpreting a string in two pieces carries the sign and the cursor across the cut. */
  lemma {:induction false} InterpretConcat(s: State, c: Client, params: seq<string>, r: Run, a: string, b: string)
    ensures Interpret(s, c, params, r, a + b) == Interpret(s, c, params, Interpret(s, c, params, r, a), b)
    decreases |a|
  {
    if a == "" {
      assert a + b == b;
    } else {
      InterpretConcat(s, c, params, Turn(s, c, params, r, a[0]), a[1..], b);
      assert (a + b)[1..] == a[1..] + b;
    }
  }

  lemma InterpretStep(s: State, c: Client, params: seq<string>, r: Run, a: string, x: char)
    ensures Interpret(s, c, params, r, a + [x]) == Turn(s, c, params, Interpret(s, c, params, r, a), x)
  {
    InterpretConcat(s, c, params, r, a, [x]);
    assert [x][1..] == "";
  }

  /** The cursor only moves forward and never passes the end of the parameters. */
  lemma {:induction false} CursorStays(s: State, c: Client, params: seq<string>, r: Run, str: string)
    requires r.cursor <= |params|
    ensures r.cursor <= Interpret(s, c, params, r, str).cursor <= |params|
    decreases |str|
  {
    if str == "" {
    } else {
      CursorStays(s, c, params, Turn(s, c, params, r, str[0]), str[1..]);
    }
  }

  /** The sign in force at the last occurrence of `letter`, or `before` when it does not occur. */
  function LastSign(str: string, adding: bool, letter: char, before: bool): bool {
    if str == "" then before
    else if str[0] == '+' then LastSign(str[1..], true, letter, before)
    else if str[0] == '-' then LastSign(str[1..], false, letter, before)
    else if str[0] == letter then LastSign(str[1..], adding, letter, adding)
    else LastSign(str[1..], adding, letter, before)
  }

  lemma TurnFlags(s: State, c: Client, params: seq<string>, r: Run, x: char)
    ensures var t := Turn(s, c, params, r, x);
      && t.adding == (if x == '+' then true else if x == '-' then false else r.adding)
      && t.ch.modes.inviteOnly == (if x == 'i' then r.adding else r.ch.modes.inviteOnly)
      && t.ch.modes.topicRestricted == (if x == 't' then r.adding else r.ch.modes.topicRestricted)
  {
  }

  /** The last +i or -i, and the last +t or -t, win; other letters do not touch these flags. */
  lemma {:induction false} FlagsAreLastSign(s: State, c: Client, params: seq<string>, r: Run, str: string)
    ensures var m := Interpret(s, c, params, r, str).ch.modes;
      && m.inviteOnly == LastSign(str, r.adding, 'i', r.ch.modes.inviteOnly)
      && m.topicRestricted == LastSign(str, r.adding, 't', r.ch.modes.topicRestricted)
    decreases |str|
  {
    if str == "" {
    } else {
      TurnFlags(s, c, params, r, str[0]);
      FlagsAreLastSign(s, c, params, Turn(s, c, params, r, str[0]), str[1..]);
    }
  }

  ghost predicate FrameKept(r: Run, t: Run) {
    && t.ch == r.ch.(modes := t.ch.modes, operators := t.ch.operators)
    && (r.ch.operators <= r.ch.members ==> t.ch.operators <= t.ch.members)
    && (ModesOk(r.ch.modes) ==> ModesOk(t.ch.modes))
  }

  lemma KeyFrame(params: seq<string>, r: Run)
    ensures FrameKept(r, Key(params, r))
  {
  }

  lemma LimitFrame(params: seq<string>, r: Run)
    ensures FrameKept(r, Limit(params, r))
  {
  }

  lemma OpFrame(s: State, c: Client, params: seq<string>, r: Run)
    ensures FrameKept(r, Op(s, c, params, r))
  {
  }

  lemma TurnFrame(s: State, c: Client, params: seq<string>, r: Run, x: char)
    ensures FrameKept(r, Turn(s, c, params, r, x))
  {
    if x == 'k' {
      KeyFrame(params, r);
    } else if x == 'l' {
      LimitFrame(params, r);
    } else if x == 'o' {
      OpFrame(s, c, params, r);
    }
  }

  /** What the interpreter may touch: modes and operators, with every new operator a member. */
  lemma {:induction false} InterpretFrame(s: State, c: Client, params: seq<string>, r: Run, str: string)
    ensures FrameKept(r, Interpret(s, c, params, r, str))
    decreases |str|
  {
    if str == "" {
    } else {
      TurnFrame(s, c, params, r, str[0]);
      InterpretFrame(s, c, params, Turn(s, c, params, r, str[0]), str[1..]);
    }
  }

  /** At the position `i` of the mode string the loop takes the nick of `d` under +o. */
  predicate GrantsAt(s: State, c: Client, ch: ChanRec, params: seq<string>, i: nat, d: Client)
    requires |params| > 1 && i < |params[1]|
  {
    var r := Interpret(s, c, params, Start(ch), params[1][..i]);
    && params[1][i] == 'o' && r.adding && r.cursor < |params|
    && params[r.cursor] in s.byNick && s.byNick[params[r.cursor]] == d
  }

  predicate Grants(s: State, c: Client, ch: ChanRec, params: seq<string>, d: Client)
    requires |params| > 1
  {
    exists i | 0 <= i < |params[1]| :: GrantsAt(s, c, ch, params, i, d)
  }

  lemma TurnGrants(s: State, c: Client, params: seq<string>, r: Run, x: char, d: Client)
    requires d !in r.ch.operators && d in Turn(s, c, params, r, x).ch.operators
    ensures x == 'o' && r.adding && r.cursor < |params|
    ensures params[r.cursor] in s.byNick && s.byNick[params[r.cursor]] == d
  {
  }

  /** Whoever the loop makes an operator, it has named under +o. */
  lemma {:induction false} InterpretGrants(s: State, c: Client, ch: ChanRec, params: seq<string>, i: nat, d: Client)
    requires |params| > 1 && i <= |params[1]| && d !in ch.operators
    ensures d in Interpret(s, c, params, Start(ch), params[1][..i]).ch.operators ==>
      exists j | 0 <= j < i :: GrantsAt(s, c, ch, params, j, d)
  {
    hide Turn;
    var str := params[1];
    if i == 0 {
      assert str[..0] == "";
    } else {
      var r := Interpret(s, c, params, Start(ch), str[..i - 1]);
      assert str[..i] == str[..i - 1] + [str[i - 1]];
      InterpretStep(s, c, params, Start(ch), str[..i - 1], str[i - 1]);
      InterpretGrants(s, c, ch, params, i - 1, d);
      if d !in r.ch.operators && d in Turn(s, c, params, r, str[i - 1]).ch.operators {
        TurnGrants(s, c, params, r, str[i - 1], d);
        assert GrantsAt(s, c, ch, params, i - 1, d);
      }
    }
  }

  predicate ErrorReply(s: State, c: Client, r: Reply) {
    r.fd == c.socketFd && r.body.Numeric? && r.body.target == TargetName(s.Rec(c).nickname)
    && r.body.num in {401, 441, 472}
  }

  /** The interpreter itself only ever answers the sender, with 401, 441 or 472. */
  lemma {:induction false} InterpretReplies(s: State, c: Client, params: seq<string>, r: Run, str: string)
    requires forall x | x in r.replies :: ErrorReply(s, c, x)
    ensures forall x | x in Interpret(s, c, params, r, str).replies :: ErrorReply(s, c, x)
    decreases |str|
  {
    if str == "" {
    } else {
      InterpretReplies(s, c, params, Turn(s, c, params, r, str[0]), str[1..]);
    }
  }

  // ----- Replaying the announced changes -----------------------------------------------------

  predicate TakesParam(adding: bool, letter: char) {
    letter == 'o' || (adding && (letter == 'k' || letter == 'l'))
  }

  /** What one change does to a copy of the modes. */
  function ApplyModes(m: ModesRec, e: Event): ModesRec {
    match e.letter
    case 'i' => m.(inviteOnly := e.adding)
    case 't' => m.(topicRestricted := e.adding)
    case 'k' => m.(channelProtected := e.adding, channelPass := e.param)
    case 'l' => if e.adding then m.(memberLimited := true, maxMember := Atoi(e.param)) else m.(memberLimited := false)
    case _ => m
  }

  function ApplyOperators(byNick: map<string, Client>, ops: set<Client>, e: Event): set<Client> {
    if e.letter != 'o' || e.param !in byNick then ops
    else if e.adding then ops + {byNick[e.param]} else ops - {byNick[e.param]}
  }

  function ApplyEvent(byNick: map<string, Client>, ch: ChanRec, e: Event): ChanRec {
    ch.(modes := ApplyModes(ch.modes, e), operators := ApplyOperators(byNick, ch.operators, e))
  }

  function Replay(byNick: map<string, Client>, ch: ChanRec, events: seq<Event>): ChanRec
    decreases |events|
  {
    if events == [] then ch else Replay(byNick, ApplyEvent(byNick, ch, events[0]), events[1..])
  }

  /** What a reader of the announcement does to its copy of the modes for a list of changes. */
  function Track(m: ModesRec, events: seq<Event>): ModesRec
    decreases |events|
  {
    if events == [] then m else Track(ApplyModes(m, events[0]), events[1..])
  }

  lemma {:induction false} TrackReplays(byNick: map<string, Client>, ch: ChanRec, events: seq<Event>)
    ensures Replay(byNick, ch, events).modes == Track(ch.modes, events)
    decreases |events|
  {
    if events == [] {
    } else {
      TrackReplays(byNick, ApplyEvent(byNick, ch, events[0]), events[1..]);
    }
  }

  predicate EventOk(e: Event) {
    && e.letter in {'i', 't', 'k', 'l', 'o'}
    && (!TakesParam(e.adding, e.letter) ==> e.param == "")
  }

  lemma {:induction false} ReplayAppend(byNick: map<string, Client>, ch: ChanRec, a: seq<Event>, e: Event)
    ensures Replay(byNick, ch, a + [e]) == ApplyEvent(byNick, Replay(byNick, ch, a), e)
    decreases |a|
  {
    if a == [] {
      assert ([] + [e])[1..] == [];
    } else {
      ReplayAppend(byNick, ApplyEvent(byNick, ch, a[0]), a[1..], e);
      assert (a + [e])[1..] == a[1..] + [e];
    }
  }

  /** From `r` to `t` at most one change was made, and it was recorded. */
  ghost predicate Recorded(byNick: map<string, Client>, r: Run, t: Run) {
    || (t.events == r.events && t.ch == r.ch)
    || exists e :: EventOk(e) && t.events == r.events + [e] && t.ch == ApplyEvent(byNick, r.ch, e)
  }

  lemma RecordedBy(byNick: map<string, Client>, r: Run, t: Run, e: Event)
    requires EventOk(e) && t.events == r.events + [e] && t.ch == ApplyEvent(byNick, r.ch, e)
    ensures Recorded(byNick, r, t)
  {
  }

  lemma KeyRecorded(byNick: map<string, Client>, params: seq<string>, r: Run)
    ensures Recorded(byNick, r, Key(params, r))
  {
    var t := Key(params, r);
    if t.events != r.events {
      RecordedBy(byNick, r, t, Event(r.adding, 'k', if r.adding then params[r.cursor] else ""));
    }
  }

  lemma LimitRecorded(byNick: map<string, Client>, params: seq<string>, r: Run)
    ensures Recorded(byNick, r, Limit(params, r))
  {
    var t := Limit(params, r);
    if t.events != r.events {
      RecordedBy(byNick, r, t, Event(r.adding, 'l', if r.adding then params[r.cursor] else ""));
    }
  }

  lemma OpRecorded(s: State, c: Client, params: seq<string>, r: Run)
    ensures Recorded(s.byNick, r, Op(s, c, params, r))
  {
    var t := Op(s, c, params, r);
    if t.events != r.events {
      RecordedBy(s.byNick, r, t, Event(r.adding, 'o', params[r.cursor]));
    }
  }

  lemma TurnRecorded(s: State, c: Client, params: seq<string>, r: Run, x: char)
    ensures Recorded(s.byNick, r, Turn(s, c, params, r, x))
  {
    var t := Turn(s, c, params, r, x);
    if x == 'k' {
      KeyRecorded(s.byNick, params, r);
    } else if x == 'l' {
      LimitRecorded(s.byNick, params, r);
    } else if x == 'o' {
      OpRecorded(s, c, params, r);
    } else if t.events != r.events {
      RecordedBy(s.byNick, r, t, Event(r.adding, x, ""));
    }
  }

  /** Replaying the recorded changes on the old channel gives the new channel, whatever the
      parameters are. */
  lemma {:induction false} ReplayFaithful(s: State, c: Client, params: seq<string>, r: Run, str: string, ch: ChanRec)
    requires Replay(s.byNick, ch, r.events) == r.ch
    requires forall e | e in r.events :: EventOk(e)
    ensures var t := Interpret(s, c, params, r, str);
      Replay(s.byNick, ch, t.events) == t.ch && forall e | e in t.events :: EventOk(e)
    decreases |str|
  {
    if str == "" {
    } else {
      var t := Turn(s, c, params, r, str[0]);
      TurnRecorded(s, c, params, r, str[0]);
      if t.events != r.events {
        var e :| EventOk(e) && t.events == r.events + [e] && t.ch == ApplyEvent(s.byNick, r.ch, e);
        ReplayAppend(s.byNick, ch, r.events, e);
      }
      ReplayFaithful(s, c, params, t, str[1..], ch);
    }
  }

  // ----- The announcement -------------------------------------------------------------------

  function Sign(adding: bool): char { if adding then '+' else '-' }

  /** How one change is written after `last`: its sign only where it differs. */
  function Letter(e: Event, last: char): string {
    (if Sign(e.adding) != last then [Sign(e.adding)] else "") + [e.letter]
  }

  /** `finalModes` */
  function Letters(events: seq<Event>, last: char): string {
    if events == [] then "" else Letter(events[0], last) + Letters(events[1..], Sign(events[0].adding))
  }

  /** The sign `lastSign` holds after `events`. */
  function SignAfter(events: seq<Event>, last: char): char {
    if events == [] then last else Sign(events[|events| - 1].adding)
  }

  /** `finalParams`: the non-empty parameters, each after a space. */
  function ParamTail(events: seq<Event>): string {
    if events == [] then "" else Optional(" ", events[0].param) + ParamTail(events[1..])
  }

  const NO_SIGN: char := 0 as char

  /** `finalModes + finalParams` */
  function Announcement(events: seq<Event>): string {
    Letters(events, NO_SIGN) + ParamTail(events)
  }

  lemma {:induction false} LettersAppend(events: seq<Event>, e: Event, last: char)
    ensures Letters(events + [e], last) == Letters(events, last) + Letter(e, SignAfter(events, last))
  {
    var all := events + [e];
    if events == [] {
      assert all[1..] == [];
    } else {
      var first, sign := events[0], Sign(events[0].adding);
      LettersAppend(events[1..], e, sign);
      assert all[0] == first && all[1..] == events[1..] + [e];
      assert SignAfter(events[1..], sign) == SignAfter(events, last);
      assert Letter(first, last) + (Letters(events[1..], sign) + Letter(e, SignAfter(events, last)))
          == Letter(first, last) + Letters(events[1..], sign) + Letter(e, SignAfter(events, last));
    }
  }

  lemma {:induction false} ParamTailAppend(events: seq<Event>, e: Event)
    ensures ParamTail(events + [e]) == ParamTail(events) + Optional(" ", e.param)
  {
    hide Optional;
    var all := events + [e];
    if events == [] {
      assert all[1..] == [];
    } else {
      ParamTailAppend(events[1..], e);
      assert all[1..] == events[1..] + [e];
    }
  }
}
