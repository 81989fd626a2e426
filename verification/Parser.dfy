// src/Parser.cpp and src/Message.cpp: one line of text to a command and its parameters.
module Parser {
  import opened Text

  const MAX_PARAMS: nat := 15

  datatype Message = Message(command: string, params: seq<string>)

  const NO_MESSAGE := Message("", [])

  // ----- What parsing means, on suffixes of the line --------------------------------

  /** The leading run of non-spaces. */
  function Word(s: string): string {
    if s == "" || s[0] == ' ' then "" else [s[0]] + Word(s[1..])
  }

  /** What is left after the leading run of non-spaces. */
  function AfterWord(s: string): (r: string)
    ensures |r| <= |s|
    ensures s != "" && s[0] != ' ' ==> |r| < |s|
  {
    if s == "" || s[0] == ' ' then s else AfterWord(s[1..])
  }

  function AfterSpaces(s: string): (r: string)
    ensures |r| <= |s|
    ensures r != "" ==> r[0] != ' '
  {
    if s == "" || s[0] != ' ' then s else AfterSpaces(s[1..])
  }

  /** At most `room` parameters; the one that starts with ':' takes the rest of the line. */
  function Params(s: string, room: nat): seq<string>
    decreases room
  {
    var t := AfterSpaces(s);
    if room == 0 || t == "" then []
    else if t[0] == ':' then [t[1..]]
    else [Word(t)] + Params(AfterWord(t), room - 1)
  }

  /** The line without its leading ":prefix", if it has one. */
  function Body(line: string): string {
    if line != "" && line[0] == ':' then AfterSpaces(AfterWord(line)) else line
  }

  function Parsed(line: string): Message {
    var body := Body(line);
    if Word(body) == "" then NO_MESSAGE
    else Message(Upper(Word(body)), Params(AfterWord(body), MAX_PARAMS))
  }

  function Trim(s: string): string {
    if s == "" then ""
    else if s[0] == ' ' then Trim(s[1..])
    else if s[|s| - 1] == ' ' then Trim(s[..|s| - 1])
    else s
  }

  // ----- The code --------------------------------------------------------------------

  method ToUpper(s: string) returns (result: string)
    ensures result == Upper(s)
  {
    result := s;
    for i := 0 to |s|
      invariant |result| == |s|
      invariant forall k | 0 <= k < i :: result[k] == Upper1(s[k])
      invariant forall k | i <= k < |s| :: result[k] == s[k]
    {
      result := result[i := Upper1(result[i])];
    }
  }

  lemma WordStep(line: string, start: nat, pos: nat)
    requires start <= pos < |line| && line[pos] != ' '
    ensures line[start..pos] + Word(line[pos..]) == line[start..pos + 1] + Word(line[pos + 1..])
    ensures AfterWord(line[pos..]) == AfterWord(line[pos + 1..])
  {
    var s := line[pos..];
    assert s[0] == line[pos] && s[1..] == line[pos + 1..];
    assert line[start..pos + 1] == line[start..pos] + [line[pos]];
    assert line[start..pos] + ([line[pos]] + Word(s[1..])) == line[start..pos] + [line[pos]] + Word(s[1..]);
  }

  /** The loops "skip until a space" of Parser::parse. */
  method SkipWord(line: string, start: nat) returns (pos: nat)
    requires start <= |line|
    ensures start <= pos <= |line|
    ensures line[start..pos] == Word(line[start..]) && line[pos..] == AfterWord(line[start..])
  {
    pos := start;
    while pos < |line| && line[pos] != ' '
      invariant start <= pos <= |line|
      invariant line[start..pos] + Word(line[pos..]) == Word(line[start..])
      invariant AfterWord(line[pos..]) == AfterWord(line[start..])
    {
      WordStep(line, start, pos);
      pos := pos + 1;
    }
  }

  /** The loops "skip the spaces" of Parser::parse. */
  method SkipSpaces(line: string, start: nat) returns (pos: nat)
    requires start <= |line|
    ensures start <= pos <= |line|
    ensures line[pos..] == AfterSpaces(line[start..])
  {
    pos := start;
    while pos < |line| && line[pos] == ' '
      invariant start <= pos <= |line|
      invariant AfterSpaces(line[pos..]) == AfterSpaces(line[start..])
    {
      assert line[pos..][1..] == line[pos + 1..];
      pos := pos + 1;
    }
  }

  /** All the parameters, when `acc` have been read and `s` is what is left. */
  ghost function Pending(acc: seq<string>, s: string): seq<string>
    requires |acc| <= MAX_PARAMS
  {
    acc + Params(s, MAX_PARAMS - |acc|)
  }

  lemma PendingEnd(acc: seq<string>, s: string)
    requires |acc| <= MAX_PARAMS
    requires |acc| == MAX_PARAMS || AfterSpaces(s) == ""
    ensures Pending(acc, s) == acc
  {
  }

  lemma PendingTrailing(acc: seq<string>, s: string, t: string)
    requires |acc| < MAX_PARAMS && t == AfterSpaces(s) && t != "" && t[0] == ':'
    ensures Pending(acc, s) == acc + [t[1..]]
  {
  }

  lemma PendingMiddle(acc: seq<string>, s: string, t: string)
    requires |acc| < MAX_PARAMS && t == AfterSpaces(s) && t != "" && t[0] != ':'
    ensures Pending(acc, s) == Pending(acc + [Word(t)], AfterWord(t))
  {
    var rest := Params(AfterWord(t), MAX_PARAMS - |acc| - 1);
    assert acc + ([Word(t)] + rest) == acc + [Word(t)] + rest;
  }

  /** The parameter loop of Parser::parse. */
  method ScanParams(line: string, start: nat) returns (params: seq<string>)
    requires start <= |line|
    ensures params == Params(line[start..], MAX_PARAMS)
  {
    var pos := start;
    params := [];
    while pos < |line| && |params| < MAX_PARAMS
      invariant pos <= |line| && |params| <= MAX_PARAMS
      invariant Pending(params, line[pos..]) == Pending([], line[start..])
    {
      ghost var before := line[pos..];
      pos := SkipSpaces(line, pos);
      ghost var t := line[pos..];
      if pos >= |line| {
        PendingEnd(params, before);
        return;
      }
      if line[pos] == ':' {
        PendingTrailing(params, before, t);
        assert t[1..] == line[pos + 1..];
        params := params + [line[pos + 1..]];
        return;
      }
      PendingMiddle(params, before, t);
      var paramStart := pos;
      pos := SkipWord(line, pos);
      params := params + [line[paramStart..pos]];
    }
    PendingEnd(params, line[pos..]);
  }

  method Parse(line: string) returns (m: Message)
    ensures m == Parsed(line)
  {
    if Trim(line) == "" {
      BlankLine(line);
      return NO_MESSAGE;
    }
    var pos := 0;
    assert line[0..] == line;
    if pos < |line| && line[pos] == ':' {
      pos := SkipWord(line, pos);
      pos := SkipSpaces(line, pos);
    }
    assert line[pos..] == Body(line);
    var cmdStart := pos;
    pos := SkipWord(line, pos);
    var command := ToUpper(line[cmdStart..pos]);
    if command == "" {
      return NO_MESSAGE;
    }
    var params := ScanParams(line, pos);
    m := Message(command, params);
  }

  lemma BlankLine(line: string)
    requires Trim(line) == ""
    ensures Word(Body(line)) == ""
  {
    if line != "" && line[0] != ' ' {
      TrimKeepsHead(line);
      assert false;
    }
  }

  lemma {:induction false} TrimKeepsHead(s: string)
    requires s != "" && s[0] != ' '
    ensures Trim(s) != ""
  {
    if s[|s| - 1] == ' ' {
      TrimKeepsHead(s[..|s| - 1]);
    }
  }

  // ----- What every parsed message looks like ------------------------------------------

  /** A parameter that can be written without a colon. */
  predicate Middle(p: string) {
    p != "" && Free(p, ' ') && p[0] != ':'
  }

  predicate GoodParams(params: seq<string>) {
    forall i | 0 <= i < |params| - 1 :: Middle(params[i])
  }

  predicate WellFormed(m: Message) {
    && |m.params| <= 15
    && GoodParams(m.params)
    && Free(m.command, ' ')
    && Upper(m.command) == m.command
  }

  predicate Without(m: Message, c: char) {
    Free(m.command, c) && AllFree(m.params, c)
  }

  lemma {:induction false} WordIsFree(s: string)
    ensures Free(Word(s), ' ')
    ensures Word(s) + AfterWord(s) == s
    ensures AfterWord(s) == "" || AfterWord(s)[0] == ' '
  {
    if s == "" || s[0] == ' ' {
    } else {
      WordIsFree(s[1..]);
      assert [s[0]] + s[1..] == s;
    }
  }

  lemma {:induction false} SpacesAreSuffix(s: string)
    ensures exists k | 0 <= k <= |s| :: AfterSpaces(s) == s[k..]
  {
    if s == "" || s[0] != ' ' {
      assert s == s[0..];
    } else {
      SpacesAreSuffix(s[1..]);
      var k :| 0 <= k <= |s[1..]| && AfterSpaces(s[1..]) == s[1..][k..];
      assert AfterSpaces(s) == s[k + 1..];
    }
  }

  lemma {:induction false} ParamsGood(s: string, room: nat)
    ensures |Params(s, room)| <= room && GoodParams(Params(s, room))
    decreases room
  {
    var t := AfterSpaces(s);
    if room == 0 || t == "" || t[0] == ':' {
    } else {
      WordIsFree(t);
      ParamsGood(AfterWord(t), room - 1);
      var rest := Params(AfterWord(t), room - 1);
      forall i | 0 <= i < |Params(s, room)| - 1 ensures Middle(Params(s, room)[i]) {
        if i > 0 { assert Params(s, room)[i] == rest[i - 1]; }
      }
    }
  }

  lemma {:induction false} ParamsWithout(s: string, room: nat, c: char)
    requires Free(s, c)
    ensures AllFree(Params(s, room), c)
    decreases room
  {
    SpacesAreSuffix(s);
    var t := AfterSpaces(s);
    if room == 0 || t == "" || t[0] == ':' {
    } else {
      WordIsFree(t);
      assert forall x | x in Word(t) :: x in t;
      assert forall x | x in AfterWord(t) :: x in t;
      ParamsWithout(AfterWord(t), room - 1, c);
    }
  }

  lemma UpperUpper(s: string)
    ensures Upper(Upper(s)) == Upper(s)
  {
    assert forall i | 0 <= i < |s| :: Upper(Upper(s))[i] == Upper(s)[i];
  }

  /** What the rest of the server may rely on: the shape of a message, for every line. */
  lemma ParsedWellFormed(line: string)
    ensures WellFormed(Parsed(line))
  {
    var body := Body(line);
    WordIsFree(body);
    UpperUpper(Word(body));
    ParamsGood(AfterWord(body), MAX_PARAMS);
    forall i | 0 <= i < |Word(body)| ensures Upper(Word(body))[i] != ' ' {
      assert Word(body)[i] in Word(body);
    }
  }

  lemma BodyWithout(line: string, c: char)
    requires Free(line, c)
    ensures Free(Body(line), c)
  {
    WordIsFree(line);
    var afterPrefix := AfterWord(line);
    assert forall x | x in afterPrefix :: x in Word(line) + afterPrefix;
    SpacesAreSuffix(afterPrefix);
  }

  /** No parameter contains a character that the line does not contain. */
  lemma ParsedWithout(line: string, c: char)
    requires Free(line, c)
    ensures AllFree(Parsed(line).params, c)
    ensures !IsAlpha(c) ==> Free(Parsed(line).command, c)
  {
    BodyWithout(line, c);
    var body := Body(line);
    WordIsFree(body);
    assert forall x | x in AfterWord(body) :: x in Word(body) + AfterWord(body);
    ParamsWithout(AfterWord(body), MAX_PARAMS, c);
    forall i | 0 <= i < |Word(body)| ensures Word(body)[i] != c {
      assert (Word(body) + AfterWord(body))[i] == Word(body)[i];
    }
  }

  // ----- Printing and parsing back ------------------------------------------------------

  function PrintParams(params: seq<string>): string {
    if params == [] then ""
    else if |params| == 1 then " :" + params[0]
    else " " + params[0] + PrintParams(params[1..])
  }

  /** Section 2.3.1 of RFC 1459: the last parameter is written after " :". */
  function Print(m: Message): string {
    m.command + PrintParams(m.params)
  }

  lemma {:induction false} WordOfConcat(w: string, rest: string)
    requires Free(w, ' ') && (rest == "" || rest[0] == ' ')
    ensures Word(w + rest) == w && AfterWord(w + rest) == rest
  {
    if w == "" {
      assert w + rest == rest;
    } else {
      WordOfConcat(w[1..], rest);
      assert (w + rest)[1..] == w[1..] + rest;
      assert [w[0]] + w[1..] == w;
    }
  }

  lemma {:induction false} ParamsPrint(params: seq<string>, room: nat)
    requires |params| <= room && GoodParams(params)
    ensures Params(PrintParams(params), room) == params
  {
    var s := PrintParams(params);
    if params == [] {
    } else if |params| == 1 {
      assert s[1..] == ":" + params[0];
      assert AfterSpaces(s) == AfterSpaces(s[1..]) == s[1..];
    } else {
      var p, rest := params[0], PrintParams(params[1..]);
      assert Middle(p);
      assert s[1..] == p + rest;
      assert AfterSpaces(s) == AfterSpaces(p + rest) == p + rest;
      WordOfConcat(p, rest);
      ParamsPrint(params[1..], room - 1);
      assert params == [p] + params[1..];
    }
  }

  /** Parsing undoes printing, on every message that can be written at all. */
  lemma RoundTrip(m: Message)
    requires WellFormed(m) && m.command != "" && m.command[0] != ':'
    ensures Parsed(Print(m)) == m
  {
    var line := Print(m);
    assert line[0] == m.command[0];
    WordOfConcat(m.command, PrintParams(m.params));
    ParamsPrint(m.params, MAX_PARAMS);
  }

  lemma {:induction false} ParamsShort(s: string, room: nat)
    ensures forall p | p in Params(s, room) :: |p| <= |AfterSpaces(s)|
    decreases room
  {
    var t := AfterSpaces(s);
    if room == 0 || t == "" || t[0] == ':' {
    } else {
      WordIsFree(t);
      ParamsShort(AfterWord(t), room - 1);
    }
  }

  /** A parsed message whose command starts with ':' reads back as something else. */
  lemma ColonCommandIsLost(m: Message)
    requires WellFormed(m) && m.command != "" && m.command[0] == ':'
    ensures Parsed(Print(m)) != m
  {
    var line := Print(m);
    var rest := PrintParams(m.params);
    WordOfConcat(m.command, rest);
    var body := Body(line);
    assert body == AfterSpaces(rest);
    if m.params == [] {
    } else if |m.params| == 1 {
      var p := m.params[0];
      assert rest[1..] == ":" + p;
      assert AfterSpaces(rest) == AfterSpaces(rest[1..]) == ":" + p;
      WordIsFree(body);
      assert |AfterWord(body)| < |body| == |p| + 1;
      var t := AfterWord(body);
      ParamsShort(t, MAX_PARAMS);
      assert p !in Params(t, MAX_PARAMS);
      assert p in m.params;
    } else {
      var p := m.params[0];
      assert Middle(p);
      assert rest[1..] == p + PrintParams(m.params[1..]);
      assert AfterSpaces(rest) == AfterSpaces(rest[1..]) == rest[1..];
      WordOfConcat(p, PrintParams(m.params[1..]));
      assert Upper(p)[0] != ':';
    }
  }

  lemma ColonStart(line: string)
    requires Parsed(line).command != ""
    ensures Body(line) != "" && (Parsed(line).command[0] == ':' <==> Body(line)[0] == ':')
  {
    var body := Body(line);
    assert Word(body)[0] == body[0];
    assert Upper(Word(body))[0] == Upper1(body[0]);
  }

  /** Print-then-parse is the identity on what a line parses to exactly when the line, after its prefix
      if it has one, does not start with a colon. */
  lemma ReparseIff(line: string)
    requires Parsed(line).command != ""
    ensures Body(line) != "" && (Parsed(Print(Parsed(line))) == Parsed(line) <==> Body(line)[0] != ':')
  {
    ColonStart(line);
    ParsedWellFormed(line);
    if Parsed(line).command[0] != ':' {
      RoundTrip(Parsed(line));
    } else {
      ColonCommandIsLost(Parsed(line));
    }
  }

  /** A line for which it is not: a prefix, and a command that starts with a colon. */
  lemma ColonLine()
    ensures Parsed(":p :q") == Message(":Q", []) && Parsed(Print(Message(":Q", []))) == NO_MESSAGE
  {
    var line := ":p :q";
    assert line == ":p" + " :q";
    WordOfConcat(":p", " :q");
    assert " :q"[1..] == ":q";
    assert AfterSpaces(" :q") == AfterSpaces(":q") == ":q";
    assert Body(line) == ":q" == ":q" + "";
    WordOfConcat(":q", "");
    assert Upper(":q") == ":Q";
    assert AfterSpaces("") == "";
    assert Print(Message(":Q", [])) == ":Q" + "" == ":Q";
    WordOfConcat(":Q", "");
  }

  // ----- Lines as clients write them ----------------------------------------------------------

  function Spaces(k: nat): string {
    if k == 0 then "" else [' '] + Spaces(k - 1)
  }

  /** Words, each after at least one space, and then the tail. */
  function Spread(gaps: seq<nat>, words: seq<string>, tail: string): string
    requires |gaps| == |words|
  {
    if words == [] then tail else Spaces(gaps[0] + 1) + words[0] + Spread(gaps[1..], words[1..], tail)
  }

  lemma {:induction false} SpacesSkipped(k: nat, s: string)
    ensures AfterSpaces(Spaces(k) + s) == AfterSpaces(s)
  {
    if k == 0 {
      assert Spaces(0) + s == s;
    } else {
      SpacesSkipped(k - 1, s);
      assert (Spaces(k) + s)[1..] == Spaces(k - 1) + s;
    }
  }

  lemma SpreadHead(gaps: seq<nat>, words: seq<string>, tail: string)
    requires |gaps| == |words| && (tail == "" || tail[0] == ' ')
    ensures var s := Spread(gaps, words, tail); s == "" || s[0] == ' '
  {
    if words != [] {
      assert Spaces(gaps[0] + 1)[0] == ' ';
    }
  }

  /** The words are the parameters, as many as there is room for; the tail is read only if there is room left. */
  lemma {:induction false} ParamsSpread(gaps: seq<nat>, words: seq<string>, tail: string, room: nat)
    requires |gaps| == |words| && (tail == "" || tail[0] == ' ') && forall i | 0 <= i < |words| :: Middle(words[i])
    ensures Params(Spread(gaps, words, tail), room)
         == if |words| >= room then words[..room] else words + Params(tail, room - |words|)
    decreases |words|
  {
    if words == [] {
      assert [] + Params(tail, room) == Params(tail, room);
    } else if room > 0 {
      var rest := Spread(gaps[1..], words[1..], tail);
      assert Middle(words[0]);
      SpreadHead(gaps[1..], words[1..], tail);
      OneSpread(gaps[0], words[0], rest, room);
      hide Params, Middle, Spaces;
      ParamsSpread(gaps[1..], words[1..], tail, room - 1);
      FirstOf(words, Params(tail, if |words| < room then room - |words| else 0), room);
    }
  }

  lemma FirstOf(words: seq<string>, later: seq<string>, room: nat)
    requires words != [] && room > 0
    ensures [words[0]] + (if |words| - 1 >= room - 1 then words[1..][..room - 1] else words[1..] + later)
         == if |words| >= room then words[..room] else words + later
  {
    if |words| >= room {
      assert words[..room] == [words[0]] + words[1..room];
      assert words[1..][..room - 1] == words[1..room];
    } else {
      assert words == [words[0]] + words[1..];
    }
  }

  lemma OneSpread(gap: nat, word: string, rest: string, room: nat)
    requires Middle(word) && room > 0 && (rest == "" || rest[0] == ' ')
    ensures Params(Spaces(gap + 1) + word + rest, room) == [word] + Params(rest, room - 1)
  {
    var s := Spaces(gap + 1) + word + rest;
    assert s == Spaces(gap + 1) + (word + rest);
    SpacesSkipped(gap + 1, word + rest);
    assert (word + rest)[0] == word[0];
    WordOfConcat(word, rest);
  }

  /** Nothing, or more spaces, or a last parameter behind a colon. */
  datatype Tail = Blank(k: nat) | Last(k: nat, text: string)

  function TailText(tail: Tail): string {
    match tail
    case Blank(k) => Spaces(k)
    case Last(k, text) => Spaces(k + 1) + ":" + text
  }

  lemma TailRead(tail: Tail, room: nat)
    requires room > 0
    ensures Params(TailText(tail), room) == if tail.Last? then [tail.text] else []
    ensures TailText(tail) == "" || TailText(tail)[0] == ' '
  {
    match tail {
      case Blank(k) =>
        assert Spaces(k) + "" == Spaces(k);
        SpacesSkipped(k, "");
      case Last(k, text) =>
        assert TailText(tail) == Spaces(k + 1) + (":" + text);
        SpacesSkipped(k + 1, ":" + text);
        assert (":" + text)[1..] == text;
    }
  }

  /** Of words and last parameter the first 15. */
  function Counted(words: seq<string>, tail: Tail): seq<string> {
    if |words| >= 15 then words[..15] else words + if tail.Last? then [tail.text] else []
  }

  lemma ParamsWritten(gaps: seq<nat>, words: seq<string>, tail: Tail)
    requires |gaps| == |words| && forall i | 0 <= i < |words| :: Middle(words[i])
    ensures Params(Spread(gaps, words, TailText(tail)), MAX_PARAMS) == Counted(words, tail)
    ensures var s := Spread(gaps, words, TailText(tail)); s == "" || s[0] == ' '
  {
    assert MAX_PARAMS == 15;
    hide Params, Middle, Spread, TailText;
    TailRead(tail, 1);
    SpreadHead(gaps, words, TailText(tail));
    ParamsSpread(gaps, words, TailText(tail), MAX_PARAMS);
    if |words| < MAX_PARAMS {
      TailRead(tail, MAX_PARAMS - |words|);
    }
  }

  /** A line as a client may write it: a prefix or none, a command in any case, words with any spaces between them,
      and a last parameter that may have spaces and colons. It is read as just that; of words and last parameter
      only the first 15 count. */
  lemma ParsedWritten(prefix: string, command: string, gaps: seq<nat>, words: seq<string>, tail: Tail)
    requires prefix == "" || (prefix[0] == ':' && Free(prefix, ' '))
    requires Middle(command) && |gaps| == |words| && forall i | 0 <= i < |words| :: Middle(words[i])
    ensures Parsed((if prefix == "" then "" else prefix + " ") + command + Spread(gaps, words, TailText(tail)))
         == Message(Upper(command), Counted(words, tail))
  {
    ParamsWritten(gaps, words, tail);
    ParsedParts(prefix, command, Spread(gaps, words, TailText(tail)));
  }

  lemma ParsedParts(prefix: string, command: string, rest: string)
    requires prefix == "" || (prefix[0] == ':' && Free(prefix, ' '))
    requires Middle(command) && (rest == "" || rest[0] == ' ')
    ensures Parsed((if prefix == "" then "" else prefix + " ") + command + rest)
         == Message(Upper(command), Params(rest, MAX_PARAMS))
  {
    hide Params, Body, Upper;
    assert command[0] in command && (command + rest)[0] == command[0];
    BodyOfLine(prefix, command + rest);
    Regrouped(if prefix == "" then "" else prefix + " ", command, rest);
    WordOfConcat(command, rest);
  }

  lemma Regrouped(a: string, b: string, c: string)
    ensures a + b + c == a + (b + c)
  {
  }

  lemma BodyOfLine(prefix: string, body: string)
    requires prefix == "" || (prefix[0] == ':' && Free(prefix, ' '))
    requires body != "" && body[0] != ':' && body[0] != ' '
    ensures Body((if prefix == "" then "" else prefix + " ") + body) == body
  {
    if prefix == "" {
      assert "" + body == body;
    } else {
      var line := prefix + " " + body;
      assert line == prefix + (" " + body);
      WordOfConcat(prefix, " " + body);
      assert line[0] == ':';
      assert (" " + body)[1..] == body;
      assert AfterSpaces(" " + body) == AfterSpaces(body) == body;
    }
  }

  /** A line that starts with a space is no message. */
  lemma LeadingSpace(line: string)
    requires line != "" && line[0] == ' '
    ensures Parsed(line) == Message("", [])
  {
  }
}
