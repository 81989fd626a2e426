// How a MODE announcement is read: the line grammar finds its letters and parameters, and these
// decode to changes. The exact condition on the message and the channel with which they are the changes
// that were made, and what is read otherwise.
module Reading {
  import opened Text
  import opened Parser
  import opened Clients
  import opened Channels
  import opened Replies
  import opened Model
  import opened Mode

  // ----- Decoding ---------------------------------------------------------------------------------

  datatype Option<T> = None | Some(value: T)

  /** Reading an announcement: runs of signs and letters; +k, +l, +o and -o take the next parameter. */
  function Decode(letters: string, sign: char, words: seq<string>): Option<seq<Event>> {
    if letters == "" then (if words == [] then Some([]) else None)
    else if letters[0] == '+' || letters[0] == '-' then Decode(letters[1..], letters[0], words)
    else if (sign != '+' && sign != '-') || letters[0] !in {'i', 't', 'k', 'l', 'o'} then None
    else if TakesParam(sign == '+', letters[0]) then
      if words == [] then None
      else
        match Decode(letters[1..], sign, words[1..])
        case None => None
        case Some(rest) => Some([Event(sign == '+', letters[0], words[0])] + rest)
    else
      match Decode(letters[1..], sign, words)
      case None => None
      case Some(rest) => Some([Event(sign == '+', letters[0], "")] + rest)
  }

  /** What a reader by the line grammar makes of the announcement of these changes, after the channel. */
  function AsRead(events: seq<Event>): Option<seq<Event>> {
    var words := Params(" " + Announcement(events), MAX_PARAMS - 1);
    if words == [] then None else Decode(words[0], NO_SIGN, words[1..])
  }

  /** The parameters that are announced, in order. */
  function ParamWords(events: seq<Event>): seq<string> {
    if events == [] then []
    else if TakesParam(events[0].adding, events[0].letter) then [events[0].param] + ParamWords(events[1..])
    else ParamWords(events[1..])
  }

  /** The same changes, announced with these parameters. */
  function Refill(events: seq<Event>, words: seq<string>): seq<Event>
    requires |words| == |ParamWords(events)|
  {
    if events == [] then []
    else if TakesParam(events[0].adding, events[0].letter) then
      [events[0].(param := words[0])] + Refill(events[1..], words[1..])
    else [events[0]] + Refill(events[1..], words)
  }

  lemma {:induction false} RefillWords(events: seq<Event>, words: seq<string>)
    requires |words| == |ParamWords(events)|
    ensures ParamWords(Refill(events, words)) == words
    ensures words == ParamWords(events) ==> Refill(events, words) == events
  {
    if events == [] {
    } else {
      var e, rest := events[0], events[1..];
      assert events == [e] + rest;
      if TakesParam(e.adding, e.letter) {
        RefillWords(rest, words[1..]);
        var head := e.(param := words[0]);
        assert ([head] + Refill(rest, words[1..]))[1..] == Refill(rest, words[1..]);
        assert ParamWords(events)[1..] == ParamWords(rest);
        assert words == [words[0]] + words[1..];
      } else {
        RefillWords(rest, words);
        assert ([e] + Refill(rest, words))[1..] == Refill(rest, words);
      }
    }
  }

  lemma LettersOf(events: seq<Event>, last: char)
    requires events != []
    ensures var tail := [events[0].letter] + Letters(events[1..], Sign(events[0].adding));
      Letters(events, last) == if Sign(events[0].adding) != last then [Sign(events[0].adding)] + tail else tail
  {
  }

  /** The letters of some changes decode to these changes, with the parameters that are there, whenever
      there are as many of them as were announced, and to nothing otherwise. */
  lemma {:induction false} DecodeLetters(events: seq<Event>, last: char, words: seq<string>)
    requires forall e | e in events :: EventOk(e)
    ensures Decode(Letters(events, last), last, words)
         == if |words| == |ParamWords(events)| then Some(Refill(events, words)) else None
  {
    if events == [] {
    } else {
      var e, rest := events[0], events[1..];
      var sign, tail := Sign(e.adding), Letters(rest, Sign(e.adding));
      assert EventOk(e);
      hide Letters, Decode, EventOk;
      DecodeHead(e, tail, words);
      LettersOf(events, last);
      if TakesParam(e.adding, e.letter) {
        if words != [] {
          DecodeLetters(rest, sign, words[1..]);
        }
      } else {
        DecodeLetters(rest, sign, words);
      }
      if sign != last {
        DecodeSign(sign, [e.letter] + tail, last, words);
      }
    }
  }

  lemma DecodeSign(sign: char, letters: string, last: char, words: seq<string>)
    requires sign == '+' || sign == '-'
    ensures Decode([sign] + letters, last, words) == Decode(letters, sign, words)
  {
    assert ([sign] + letters)[1..] == letters;
  }

  lemma DecodeHead(e: Event, tail: string, words: seq<string>)
    requires EventOk(e)
    ensures var takes := TakesParam(e.adding, e.letter);
      var later := if takes && words != [] then words[1..] else words;
      Decode([e.letter] + tail, Sign(e.adding), words)
      == if takes && words == [] then None
         else
           match Decode(tail, Sign(e.adding), later)
           case None => None
           case Some(rest) => Some([if takes then e.(param := words[0]) else e] + rest)
  {
    assert ([e.letter] + tail)[1..] == tail;
  }

  lemma {:induction false} LettersMiddle(events: seq<Event>, last: char)
    requires forall e | e in events :: EventOk(e)
    ensures Free(Letters(events, last), ' ') && Free(Letters(events, last), ':')
    ensures events != [] ==> Letters(events, last) != ""
  {
    if events == [] {
    } else {
      assert EventOk(events[0]);
      LettersMiddle(events[1..], Sign(events[0].adding));
    }
  }

  // ----- The parameters by the line grammar ----------------------------------------------------------

  /** A parameter that needs no colon is read as it was written. */
  lemma ParamStep(p: string, rest: string, room: nat)
    requires Middle(p) && room > 0 && (rest == "" || rest[0] == ' ')
    ensures Params(" " + p + rest, room) == [p] + Params(rest, room - 1)
  {
    var s := " " + p + rest;
    assert s[1..] == p + rest;
    assert AfterSpaces(s) == AfterSpaces(p + rest) == p + rest;
    WordOfConcat(p, rest);
  }

  lemma {:induction false} TailHead(events: seq<Event>)
    requires forall e | e in events :: EventOk(e)
    ensures ParamTail(events) == "" || ParamTail(events)[0] == ' '
    ensures ParamWords(events) == [] ==> ParamTail(events) == ""
  {
    if events == [] {
    } else {
      assert EventOk(events[0]);
      TailHead(events[1..]);
    }
  }

  /** What a reader finds of these parameters when only the last one may be odd: the others, and what it comes to. */
  function FoundOf(words: seq<string>, room: nat): seq<string>
    requires 0 < |words| <= room
  {
    var k := |words| - 1;
    words[..k] + Params(Optional(" ", words[k]), room - k)
  }

  /** When only the last parameter is odd, all the others are read back, and then what it comes to. */
  lemma {:induction false} TailParams(events: seq<Event>, room: nat)
    requires (forall e | e in events :: EventOk(e)) && 0 < |ParamWords(events)| <= room
    requires GoodParams(ParamWords(events))
    ensures Params(ParamTail(events), room) == FoundOf(ParamWords(events), room)
  {
    var e, rest := events[0], events[1..];
    TailCases(events);
    hide Params, Middle, GoodParams, ParamWords, ParamTail, EventOk, FoundOf, Optional;
    TailHead(rest);
    if !TakesParam(e.adding, e.letter) {
      TailParams(rest, room);
    } else if ParamWords(rest) == [] {
      FoundAlone(e.param, room);
    } else {
      GoodHead(e.param, ParamWords(rest));
      TailParams(rest, room - 1);
      TailTake(e.param, ParamTail(rest), ParamWords(rest), room);
    }
  }

  lemma FoundAlone(p: string, room: nat)
    requires room > 0
    ensures Params(Optional(" ", p) + "", room) == FoundOf([p] + [], room)
  {
    hide Params, Optional;
    assert [p] + [] == [p] && [p][..0] == [];
    assert Optional(" ", p) + "" == Optional(" ", p);
  }

  lemma TailCases(events: seq<Event>)
    requires events != [] && forall e | e in events :: EventOk(e)
    ensures var e, rest := events[0], events[1..];
      if TakesParam(e.adding, e.letter)
        then ParamWords(events) == [e.param] + ParamWords(rest)
          && ParamTail(events) == Optional(" ", e.param) + ParamTail(rest)
        else ParamWords(events) == ParamWords(rest) && ParamTail(events) == ParamTail(rest)
  {
    assert EventOk(events[0]);
  }

  lemma GoodHead(p: string, later: seq<string>)
    requires GoodParams([p] + later) && later != []
    ensures Middle(p) && GoodParams(later)
  {
    assert ([p] + later)[0] == p;
    assert forall i | 0 <= i < |later| - 1 :: later[i] == ([p] + later)[i + 1];
  }

  lemma TailTake(p: string, tail: string, later: seq<string>, room: nat)
    requires Middle(p) && room > |later| > 0 && (tail == "" || tail[0] == ' ')
    requires Params(tail, room - 1) == FoundOf(later, room - 1)
    ensures Params(Optional(" ", p) + tail, room) == FoundOf([p] + later, room)
  {
    hide Params;
    assert p != "";
    hide Middle;
    var all, k := [p] + later, |later| - 1;
    var last := Params(Optional(" ", later[k]), room - |later|);
    ParamStep(p, tail, room);
    assert all[..k + 1] == [p] + later[..k] && all[k + 1] == later[k];
    assert [p] + (later[..k] + last) == [p] + later[..k] + last;
  }

  /** The characters of these parameters, each with a space before it. */
  function Total(words: seq<string>): nat {
    if words == [] then 0 else 1 + |words[0]| + Total(words[1..])
  }

  /** Nothing is read twice, and a colon that is taken off is missing in the end. */
  lemma {:induction false} ParamsTotal(s: string, room: nat)
    requires s == "" || s[0] == ' '
    ensures Total(Params(s, room)) <= |s|
    ensures Total(Params(s, room)) == |s| ==> forall p | p in Params(s, room) :: Middle(p)
    decreases room
  {
    var t := AfterSpaces(s);
    if room == 0 || t == "" {
    } else if t[0] == ':' {
      assert [t[1..]][1..] == [];
    } else {
      WordIsFree(t);
      ParamsTotal(AfterWord(t), room - 1);
      var rest := Params(AfterWord(t), room - 1);
      assert Word(t) + AfterWord(t) == t;
      assert ([Word(t)] + rest)[1..] == rest;
    }
  }

  lemma {:induction false} TailTotal(events: seq<Event>)
    requires forall e | e in events :: EventOk(e)
    ensures |ParamTail(events)| <= Total(ParamWords(events))
  {
    if events == [] {
    } else {
      var e, rest := events[0], events[1..];
      assert EventOk(e);
      TailTotal(rest);
      assert |ParamTail(events)| <= (if e.param == "" then 0 else 1 + |e.param|) + |ParamTail(rest)|;
      if TakesParam(e.adding, e.letter) {
        assert ParamWords(events) == [e.param] + ParamWords(rest);
        assert ParamWords(events)[1..] == ParamWords(rest);
      } else {
        assert ParamWords(events) == ParamWords(rest);
      }
    }
  }

  /** Every announced parameter can be written without a colon. */
  predicate Clean(events: seq<Event>) {
    forall e | e in events && TakesParam(e.adding, e.letter) :: Middle(e.param)
  }

  lemma {:induction false} CleanWords(events: seq<Event>)
    ensures Clean(events) <==> forall p | p in ParamWords(events) :: Middle(p)
  {
    hide Middle;
    if events == [] {
    } else {
      var e, rest := events[0], events[1..];
      CleanWords(rest);
      assert events == [e] + rest;
    }
  }

  /** One parameter that is alone on the rest of the line is read back only when it needs no colon. */
  lemma ParamAlone(p: string, room: nat)
    requires room > 0
    ensures Params(Optional(" ", p), room) == [p] <==> Middle(p)
  {
    assert Total([p]) == 1 + |p| + Total([]);
    ParamsTotal(Optional(" ", p), room);
    if Middle(p) {
      ParamStep(p, "", room);
      assert " " + p + "" == " " + p;
    }
  }

  /** The parameters of an announcement are read back exactly when none of them needs a colon. */
  lemma WordsReadIff(events: seq<Event>, room: nat)
    requires (forall e | e in events :: EventOk(e)) && |ParamWords(events)| <= room
    ensures Params(ParamTail(events), room) == ParamWords(events) <==> Clean(events)
  {
    hide Middle, Clean, EventOk, GoodParams, Params, ParamTail, ParamWords, Total;
    CleanWords(events);
    TailHead(events);
    ParamsTotal(ParamTail(events), room);
    TailTotal(events);
    if Clean(events) {
      MiddlesRead(events, room);
    }
  }

  lemma MiddlesRead(events: seq<Event>, room: nat)
    requires (forall e | e in events :: EventOk(e)) && |ParamWords(events)| <= room
    requires forall p | p in ParamWords(events) :: Middle(p)
    ensures Params(ParamTail(events), room) == ParamWords(events)
  {
    hide Middle, EventOk, GoodParams;
    var all := ParamWords(events);
    TailHead(events);
    if all != [] {
      hide ParamTail, ParamWords, Params;
      var k := |all| - 1;
      LastIsMiddle(all);
      TailParams(events, room);
      ParamAlone(all[k], room - k);
      InitAndLast(all);
    }
  }

  lemma LastIsMiddle(all: seq<string>)
    requires all != [] && forall p | p in all :: Middle(p)
    ensures GoodParams(all) && Middle(all[|all| - 1])
  {
  }

  lemma InitAndLast(all: seq<string>)
    requires all != []
    ensures all == all[..|all| - 1] + [all[|all| - 1]]
  {
  }

  /** The parameters a reader finds after the letters. */
  function ReadWords(events: seq<Event>): seq<string> {
    Params(ParamTail(events), MAX_PARAMS - 2)
  }

  /** A reader finds the changes again, with the parameters that it finds, whenever it finds as many of
      them as were announced, and nothing otherwise. */
  lemma AsReadWords(events: seq<Event>)
    requires events != [] && forall e | e in events :: EventOk(e)
    ensures Params(" " + Announcement(events), MAX_PARAMS - 1) == [Letters(events, NO_SIGN)] + ReadWords(events)
    ensures AsRead(events)
         == if |ReadWords(events)| == |ParamWords(events)| then Some(Refill(events, ReadWords(events))) else None
  {
    hide Params, Decode, ParamTail, ParamWords, Refill, Letters, EventOk;
    var letters, tail := Letters(events, NO_SIGN), ParamTail(events);
    LettersMiddle(events, NO_SIGN);
    assert letters[0] in letters;
    TailHead(events);
    ParamStep(letters, tail, MAX_PARAMS - 1);
    assert " " + (letters + tail) == " " + letters + tail;
    var words := Params(" " + Announcement(events), MAX_PARAMS - 1);
    assert words[1..] == ReadWords(events);
    DecodeLetters(events, NO_SIGN, ReadWords(events));
  }

  /** How often a sign has to be written: for the first change, and wherever the sign turns. */
  function Turns(events: seq<Event>): nat {
    if events == [] then 0
    else if |events| == 1 then 1
    else (if events[0].adding != events[1].adding then 1 else 0) + Turns(events[1..])
  }

  lemma {:induction false} LettersLength(events: seq<Event>, last: char)
    requires events != []
    ensures |Letters(events, last)|
         == |events| + Turns(events) - if last == Sign(events[0].adding) then 1 else 0
  {
    if |events| == 1 {
      assert Letters(events[1..], Sign(events[0].adding)) == "";
    } else {
      LettersLength(events[1..], Sign(events[0].adding));
    }
  }

  /** The announcement has one letter for each change, a sign where it turns, one space before each parameter, and
      nothing else. */
  lemma AnnouncementLength(events: seq<Event>)
    requires events != [] && Clean(events) && forall e | e in events :: EventOk(e)
    ensures |Announcement(events)| == |events| + Turns(events) + Total(ParamWords(events))
  {
    LettersLength(events, NO_SIGN);
    TailLength(events);
  }

  lemma {:induction false} TailLength(events: seq<Event>)
    requires Clean(events) && forall e | e in events :: EventOk(e)
    ensures |ParamTail(events)| == Total(ParamWords(events))
  {
    if events == [] {
    } else {
      var e, rest := events[0], events[1..];
      assert EventOk(e) && (TakesParam(e.adding, e.letter) ==> Middle(e.param));
      assert TakesParam(e.adding, e.letter) ==> e.param != "";
      hide Middle, EventOk;
      TailLength(rest);
      if TakesParam(e.adding, e.letter) {
        assert ParamWords(events)[1..] == ParamWords(rest);
      }
    }
  }

  /** The announcement of some changes reads back as them exactly when no announced parameter needs a
      colon. */
  lemma AnnouncementIff(events: seq<Event>)
    requires events != [] && (forall e | e in events :: EventOk(e)) && |ParamWords(events)| <= MAX_PARAMS - 2
    ensures AsRead(events) == Some(events) <==> Clean(events)
  {
    AsReadWords(events);
    WordsReadIff(events, MAX_PARAMS - 2);
    if |ReadWords(events)| == |ParamWords(events)| {
      RefillWords(events, ReadWords(events));
    }
  }

  // ----- The condition on the message ----------------------------------------------------------------

  /** On the character `x` the loop takes the last parameter and announces it. */
  predicate TakesLast(params: seq<string>, r: Run, x: char) {
    && |params| > 2 && r.adding && r.cursor == |params| - 1
    && (x == 'k' || (x == 'l' && Atoi(params[r.cursor]) > 0))
  }

  /** The loop announces the last parameter at the position `i` of the mode string. */
  predicate TakesLastAt(s: State, c: Client, ch: ChanRec, params: seq<string>, i: nat)
    requires |params| > 1 && i < |params[1]|
  {
    TakesLast(params, Interpret(s, c, params, Start(ch), params[1][..i]), params[1][i])
  }

  /** The condition on a MODE with which its announcement reads back: the last parameter needs no colon, or
      there is none, or nothing takes and announces it. */
  predicate Readable(s: State, c: Client, ch: ChanRec, params: seq<string>)
    requires |params| > 1
  {
    || |params| <= 2
    || Middle(params[|params| - 1])
    || forall i | 0 <= i < |params[1]| :: !TakesLastAt(s, c, ch, params, i)
  }

  /** The last of the changes that is announced with a parameter. */
  function LastTaker(events: seq<Event>): (e: Event)
    requires ParamWords(events) != []
    ensures TakesParam(e.adding, e.letter) && e.param == ParamWords(events)[|ParamWords(events)| - 1]
  {
    if ParamWords(events[1..]) == [] then events[0] else LastTaker(events[1..])
  }

  lemma {:induction false} ParamWordsAppend(events: seq<Event>, e: Event)
    ensures ParamWords(events + [e]) == ParamWords(events) + if TakesParam(e.adding, e.letter) then [e.param] else []
  {
    var all := events + [e];
    if events == [] {
      assert all[1..] == [];
    } else {
      ParamWordsAppend(events[1..], e);
      assert all[0] == events[0] && all[1..] == events[1..] + [e];
    }
  }

  lemma {:induction false} LastTakerAppend(events: seq<Event>, e: Event)
    requires ParamWords(events + [e]) != []
    ensures TakesParam(e.adding, e.letter) ==> LastTaker(events + [e]) == e
    ensures !TakesParam(e.adding, e.letter) ==> ParamWords(events) != [] && LastTaker(events + [e]) == LastTaker(events)
  {
    var all := events + [e];
    ParamWordsAppend(events, e);
    if events == [] {
      assert all[1..] == [];
    } else {
      assert all[0] == events[0] && all[1..] == events[1..] + [e];
      ParamWordsAppend(events[1..], e);
      if ParamWords(all[1..]) != [] {
        LastTakerAppend(events[1..], e);
      }
    }
  }

  /** Only the last announced parameter needs a colon: it is `p`, as a key or a limit. */
  ghost predicate LastOdd(events: seq<Event>, p: string) {
    && ParamWords(events) != [] && GoodParams(ParamWords(events)) && !Middle(p)
    && LastTaker(events).param == p && LastTaker(events).letter in {'k', 'l'}
  }

  lemma LastOddAppend(events: seq<Event>, e: Event, p: string)
    requires LastOdd(events, p) && !TakesParam(e.adding, e.letter)
    ensures LastOdd(events + [e], p)
  {
    ParamWordsAppend(events, e);
    LastTakerAppend(events, e);
  }

  lemma LastOddNow(events: seq<Event>, e: Event)
    requires Clean(events) && TakesParam(e.adding, e.letter) && e.letter in {'k', 'l'} && !Middle(e.param)
    ensures LastOdd(events + [e], e.param)
  {
    hide Middle;
    CleanWords(events);
    ParamWordsAppend(events, e);
    LastTakerAppend(events, e);
  }

  lemma CleanAppend(events: seq<Event>, e: Event)
    ensures Clean(events + [e]) <==> Clean(events) && (TakesParam(e.adding, e.letter) ==> Middle(e.param))
  {
    assert e in events + [e];
    assert forall x | x in events :: x in events + [e];
  }

  /** All parameters but the last one need no colon, and no nick does. */
  ghost predicate OrdinaryParams(s: State, params: seq<string>) {
    GoodParams(params) && forall nick | nick in s.byNick :: Middle(nick)
  }

  lemma ParsedOrdinary(s: State, params: seq<string>)
    requires NicksAgree(s) && GoodParams(params)
    ensures OrdinaryParams(s, params)
  {
  }

  /** There are no more announced parameters than parameters taken. While the last one is not taken
      none of the announced ones is odd, and later only it can be. */
  ghost predicate Balanced(params: seq<string>, r: Run) {
    && 2 <= r.cursor && |ParamWords(r.events)| <= r.cursor - 2
    && (r.cursor < |params| ==> Clean(r.events))
    && (Clean(r.events) || (params != [] && LastOdd(r.events, params[|params| - 1])))
  }

  /** The announcement stays clean over a turn, but for taking the last parameter when it is odd. */
  ghost predicate Spoils(params: seq<string>, r: Run, t: Run, x: char) {
    && Balanced(params, t)
    && (Clean(t.events) <==> Clean(r.events) && (TakesLast(params, r, x) ==> Middle(params[|params| - 1])))
  }

  lemma QuietTurn(params: seq<string>, r: Run, t: Run, x: char)
    requires Balanced(params, r) && r.cursor <= t.cursor && !TakesLast(params, r, x)
    requires t.events == r.events
    ensures Spoils(params, r, t, x)
  {
  }

  /** A change that is announced without a parameter. */
  lemma PlainTurn(params: seq<string>, r: Run, t: Run, x: char, e: Event)
    requires Balanced(params, r) && r.cursor <= t.cursor && t.events == r.events + [e]
    requires !TakesParam(e.adding, e.letter) && !TakesLast(params, r, x)
    ensures Spoils(params, r, t, x)
  {
    CleanAppend(r.events, e);
    ParamWordsAppend(r.events, e);
    if !Clean(r.events) {
      LastOddAppend(r.events, e, params[|params| - 1]);
    }
  }

  /** A change that is announced with the parameter at the cursor. */
  lemma TakingTurn(params: seq<string>, r: Run, t: Run, x: char, e: Event)
    requires Balanced(params, r) && r.cursor < |params| && t.cursor == r.cursor + 1 && t.events == r.events + [e]
    requires TakesParam(e.adding, e.letter) && e.param == params[r.cursor]
    requires TakesLast(params, r, x) ==> r.cursor == |params| - 1 && e.letter in {'k', 'l'}
    requires !TakesLast(params, r, x) ==> Middle(e.param)
    ensures Spoils(params, r, t, x)
  {
    CleanAppend(r.events, e);
    ParamWordsAppend(r.events, e);
    if !Middle(e.param) {
      LastOddNow(r.events, e);
    }
  }

  lemma FlagSpoils(s: State, c: Client, params: seq<string>, r: Run, x: char)
    requires Balanced(params, r) && x != 'k' && x != 'l' && x != 'o'
    ensures Spoils(params, r, Turn(s, c, params, r, x), x)
  {
    hide Balanced, Spoils;
    var t := Turn(s, c, params, r, x);
    if t.events == r.events {
      QuietTurn(params, r, t, x);
    } else {
      PlainTurn(params, r, t, x, Event(r.adding, x, ""));
    }
  }

  lemma KeySpoils(s: State, params: seq<string>, r: Run)
    requires Balanced(params, r) && OrdinaryParams(s, params)
    ensures Spoils(params, r, Key(params, r), 'k')
  {
    hide Spoils, Middle, LastOdd, Clean;
    var t := Key(params, r);
    if t.events == r.events {
      QuietTurn(params, r, t, 'k');
    } else if r.adding {
      TakingTurn(params, r, t, 'k', Event(true, 'k', params[r.cursor]));
    } else {
      PlainTurn(params, r, t, 'k', Event(false, 'k', ""));
    }
  }

  lemma LimitSpoils(s: State, params: seq<string>, r: Run)
    requires Balanced(params, r) && OrdinaryParams(s, params)
    ensures Spoils(params, r, Limit(params, r), 'l')
  {
    hide Spoils, Middle, LastOdd, Clean;
    var t := Limit(params, r);
    if t.events == r.events {
      QuietTurn(params, r, t, 'l');
    } else if r.adding {
      TakingTurn(params, r, t, 'l', Event(true, 'l', params[r.cursor]));
    } else {
      PlainTurn(params, r, t, 'l', Event(false, 'l', ""));
    }
  }

  /** An operator change is announced with a nick, and nicks need no colon. */
  lemma OpSpoils(s: State, c: Client, params: seq<string>, r: Run)
    requires Balanced(params, r) && OrdinaryParams(s, params)
    ensures Spoils(params, r, Op(s, c, params, r), 'o')
  {
    hide Spoils, Middle, LastOdd, Clean;
    var t := Op(s, c, params, r);
    if t.events == r.events {
      QuietTurn(params, r, t, 'o');
    } else {
      TakingTurn(params, r, t, 'o', Event(r.adding, 'o', params[r.cursor]));
    }
  }

  lemma TurnSpoils(s: State, c: Client, params: seq<string>, r: Run, x: char)
    requires Balanced(params, r) && OrdinaryParams(s, params)
    ensures Spoils(params, r, Turn(s, c, params, r, x), x)
  {
    hide Balanced, Spoils, OrdinaryParams;
    match x {
      case 'k' => KeySpoils(s, params, r);
      case 'l' => LimitSpoils(s, params, r);
      case 'o' => OpSpoils(s, c, params, r);
      case _ => FlagSpoils(s, c, params, r, x);
    }
  }

  /** After `i` characters the announcement is odd exactly when one of them took the last parameter
      and that needs a colon. */
  lemma {:induction false} PrefixSpoils(s: State, c: Client, ch: ChanRec, params: seq<string>, i: nat)
    requires |params| > 1 && i <= |params[1]| && OrdinaryParams(s, params)
    ensures var r := Interpret(s, c, params, Start(ch), params[1][..i]);
      && Balanced(params, r)
      && (Clean(r.events) <==>
            Middle(params[|params| - 1]) || forall j | 0 <= j < i :: !TakesLastAt(s, c, ch, params, j))
  {
    hide Turn, OrdinaryParams, TakesLast, Middle;
    var str := params[1];
    if i == 0 {
      assert str[..0] == "";
    } else {
      PrefixSpoils(s, c, ch, params, i - 1);
      var r := Interpret(s, c, params, Start(ch), str[..i - 1]);
      assert str[..i] == str[..i - 1] + [str[i - 1]];
      InterpretStep(s, c, params, Start(ch), str[..i - 1], str[i - 1]);
      TurnSpoils(s, c, params, r, str[i - 1]);
      assert TakesLastAt(s, c, ch, params, i - 1) == TakesLast(params, r, str[i - 1]);
    }
  }

  /** A MODE announces parameters without need of a colon only exactly when it is readable; otherwise its last
      parameter is the last one it announces and the only one that is odd. */
  lemma ReadableClean(s: State, c: Client, ch: ChanRec, params: seq<string>)
    requires NicksAgree(s) && GoodParams(params) && |params| > 1
    ensures var events := Interpret(s, c, params, Start(ch), params[1]).events;
      && (Clean(events) <==> Readable(s, c, ch, params))
      && (!Readable(s, c, ch, params) ==> LastOdd(events, params[|params| - 1]))
      && |ParamWords(events)| <= |params| - 2
  {
    hide Interpret, TakesLast, Middle;
    var str := params[1];
    ParsedOrdinary(s, params);
    PrefixSpoils(s, c, ch, params, |str|);
    assert str[..|str|] == str;
    CursorStays(s, c, params, Start(ch), str);
    if |params| <= 2 {
      forall i | 0 <= i < |str| ensures !TakesLastAt(s, c, ch, params, i) {
        NothingToTake(params, Interpret(s, c, params, Start(ch), str[..i]), str[i]);
      }
    }
  }

  lemma NothingToTake(params: seq<string>, r: Run, x: char)
    requires |params| <= 2
    ensures !TakesLast(params, r, x)
  {
  }

  /** The exact condition: what a reader makes of the announcement is the changes that were made exactly
      when the message is readable. */
  lemma ReadableIff(s: State, c: Client, ch: ChanRec, params: seq<string>)
    requires NicksAgree(s) && GoodParams(params) && 1 < |params| <= MAX_PARAMS
    ensures var events := Interpret(s, c, params, Start(ch), params[1]).events;
      events != [] ==> (AsRead(events) == Some(events) <==> Readable(s, c, ch, params))
  {
    hide Interpret, Readable, AsRead, Decode;
    var events := Interpret(s, c, params, Start(ch), params[1]).events;
    ReplayFaithful(s, c, params, Start(ch), params[1], ch);
    ReadableClean(s, c, ch, params);
    if events != [] {
      AnnouncementIff(events);
    }
  }

  // ----- What an odd announcement does to a copy of the modes ------------------------------------------

  /** A reader finds every parameter but the last, and then what that comes to: it reads the changes with another
      last parameter, or nothing. */
  lemma OddWords(events: seq<Event>, p: string)
    requires (forall e | e in events :: EventOk(e)) && |ParamWords(events)| <= MAX_PARAMS - 2 && LastOdd(events, p)
    ensures var words, all, k := ReadWords(events), ParamWords(events), |ParamWords(events)| - 1;
      |words| == |all| ==> words[..k] == all[..k] && words[k] != p
  {
    hide Middle, GoodParams, Params, ParamTail, ParamWords, LastTaker, EventOk;
    var all, k := ParamWords(events), |ParamWords(events)| - 1;
    TailParams(events, MAX_PARAMS - 2);
    ParamAlone(p, MAX_PARAMS - 2 - k);
    OddSeq(ReadWords(events), all, Params(Optional(" ", p), MAX_PARAMS - 2 - k), p);
  }

  lemma OddSeq(words: seq<string>, all: seq<string>, found: seq<string>, p: string)
    requires all != [] && words == all[..|all| - 1] + found && found != [p]
    ensures var k := |all| - 1; |words| == |all| ==> words[..k] == all[..k] && words[k] != p
  {
    if |words| == |all| {
      assert found == [words[|all| - 1]];
    }
  }

  /** Two copies of the modes that differ in the key while there is one. */
  predicate KeyApart(a: ModesRec, b: ModesRec) {
    b == a.(channelPass := b.channelPass) && (a == b <==> !a.channelProtected)
  }

  lemma {:induction false} KeyGap(a: ModesRec, b: ModesRec, events: seq<Event>)
    requires KeyApart(a, b) && ParamWords(events) == [] && forall e | e in events :: EventOk(e)
    ensures KeyApart(Track(a, events), Track(b, events))
    decreases |events|
  {
    if events == [] {
    } else {
      assert EventOk(events[0]);
      KeyGap(ApplyModes(a, events[0]), ApplyModes(b, events[0]), events[1..]);
    }
  }

  lemma {:induction false} LimitGap(a: ModesRec, b: ModesRec, events: seq<Event>)
    requires b == a.(maxMember := b.maxMember) && ParamWords(events) == [] && forall e | e in events :: EventOk(e)
    ensures Track(b, events) == Track(a, events).(maxMember := b.maxMember) && Track(a, events).maxMember == a.maxMember
    decreases |events|
  {
    if events == [] {
    } else {
      assert EventOk(events[0]);
      LimitGap(ApplyModes(a, events[0]), ApplyModes(b, events[0]), events[1..]);
    }
  }

  /** What a change with another last parameter does: the copy is right all the same exactly when the key is taken
      away again, or the limit is the same number. */
  lemma {:induction false} OddTrack(m: ModesRec, events: seq<Event>, words: seq<string>)
    requires (forall e | e in events :: EventOk(e)) && ParamWords(events) != [] && |words| == |ParamWords(events)|
    requires LastTaker(events).letter in {'k', 'l'}
    requires var k := |words| - 1; words[..k] == ParamWords(events)[..k] && words[k] != ParamWords(events)[k]
    ensures var good, copy, last, q := Track(m, events), Track(m, Refill(events, words)),
        LastTaker(events), words[|words| - 1];
      && (copy == good <==> if last.letter == 'k' then !good.channelProtected else Atoi(q) == Atoi(last.param))
      && (copy == good.(channelPass := copy.channelPass) || copy == good.(maxMember := copy.maxMember))
    decreases |events|
  {
    hide Atoi;
    var e, rest, k := events[0], events[1..], |words| - 1;
    var all := ParamWords(events);
    assert EventOk(e);
    if !TakesParam(e.adding, e.letter) {
      OddTrack(ApplyModes(m, e), rest, words);
      assert Refill(events, words)[1..] == Refill(rest, words);
    } else if ParamWords(rest) == [] {
      var odd := e.(param := words[0]);
      RefillWords(rest, words[1..]);
      assert Refill(events, words) == [odd] + rest;
      assert Refill(events, words)[1..] == rest;
      if e.letter == 'k' {
        KeyGap(ApplyModes(m, e), ApplyModes(m, odd), rest);
      } else {
        LimitGap(ApplyModes(m, e), ApplyModes(m, odd), rest);
      }
    } else {
      assert all == [e.param] + ParamWords(rest);
      assert words[0] == words[..k][0] == all[..k][0] == e.param;
      assert words[1..][..k - 1] == words[..k][1..] == all[..k][1..] == ParamWords(rest)[..k - 1];
      OddTrack(ApplyModes(m, e), rest, words[1..]);
      assert Refill(events, words)[1..] == Refill(rest, words[1..]);
    }
  }

  /** What a reader's copy of the modes comes to. */
  function Copied(m: ModesRec, events: seq<Event>): ModesRec {
    match AsRead(events)
    case None => m
    case Some(read) => Track(m, read)
  }

  /** Misreading these changes does no harm to a copy of the modes: nothing is read and nothing was changed, or
      the key that is read is taken away again, or the limit that is read is the same number. */
  predicate Harmless(m: ModesRec, events: seq<Event>) {
    var words, all := ReadWords(events), ParamWords(events);
    if |words| != |all| then Track(m, events) == m
    else if all == [] then true
    else if LastTaker(events).letter == 'k' then !Track(m, events).channelProtected
    else Atoi(words[|words| - 1]) == Atoi(all[|all| - 1])
  }

  /** A copy that is right but for the key or the number of the limit. */
  predicate NearlyRight(copy: ModesRec, m: ModesRec) {
    copy == m.(channelPass := copy.channelPass) || copy == m.(maxMember := copy.maxMember)
  }

  lemma OddCopy(m: ModesRec, events: seq<Event>, p: string)
    requires (forall e | e in events :: EventOk(e)) && |ParamWords(events)| <= MAX_PARAMS - 2 && LastOdd(events, p)
    ensures Copied(m, events) == Track(m, events) <==> Harmless(m, events)
    ensures Copied(m, events) == m || NearlyRight(Copied(m, events), Track(m, events))
  {
    hide Track, Atoi, AsRead, ReadWords, Params, GoodParams, Middle;
    AsReadWords(events);
    OddWords(events, p);
    if |ReadWords(events)| == |ParamWords(events)| {
      OddTrack(m, events, ReadWords(events));
    }
  }

  /** The exact condition for a copy of the modes: a reader's copy is right exactly when the message is readable or
      the misreading is harmless. Otherwise it stays as it was, or has another key or another limit. */
  lemma CopyRightIff(s: State, c: Client, ch: ChanRec, params: seq<string>)
    requires NicksAgree(s) && GoodParams(params) && 1 < |params| <= MAX_PARAMS
    ensures var run := Interpret(s, c, params, Start(ch), params[1]);
      run.events != [] ==>
        && (Copied(ch.modes, run.events) == run.ch.modes
            <==> Readable(s, c, ch, params) || Harmless(ch.modes, run.events))
        && (Copied(ch.modes, run.events) == ch.modes || NearlyRight(Copied(ch.modes, run.events), run.ch.modes))
  {
    hide Interpret, Readable, AsRead, Decode, Track, Harmless, LastOdd, NearlyRight;
    var run := Interpret(s, c, params, Start(ch), params[1]);
    ReplayFaithful(s, c, params, Start(ch), params[1], ch);
    TrackReplays(s.byNick, ch, run.events);
    ReadableClean(s, c, ch, params);
    ReadableIff(s, c, ch, params);
    if Readable(s, c, ch, params) {
      RightIsNearlyRight(run.ch.modes);
    } else {
      OddCopy(ch.modes, run.events, params[|params| - 1]);
    }
  }

  lemma RightIsNearlyRight(m: ModesRec)
    ensures NearlyRight(m, m)
  {
  }
}
