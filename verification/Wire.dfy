// What a client reads of the lines it is sent: the literal message of every kind of reply, and its sender.
module Wires {
  import opened Text
  import opened Parser
  import opened Clients
  import opened Replies
  import opened Model
  import opened Reading
  import opened Commands
  import opened Safety
  import opened Answers
  import opened Delivery
  import opened Laws

  // ----- The message of a line -----------------------------------------------------------------------

  /** A line that ends in CR LF, by the grammar of lines. */
  function ReadLine(t: string): Option<Message> {
    if |t| >= 2 && t[|t| - 2..] == "\r\n" then Some(Parsed(t[..|t| - 2])) else None
  }

  predicate IsPrefix(p: string) {
    p != "" && p[0] == ':' && Free(p, ' ')
  }

  lemma LastParam(text: string, room: nat)
    requires room > 0
    ensures Params(" :" + text, room) == [text]
  {
    var s := " :" + text;
    assert s[1..] == ":" + text;
    assert AfterSpaces(s) == AfterSpaces(s[1..]) == s[1..];
  }

  lemma OneParam(p: string, room: nat)
    requires Middle(p) && room > 0
    ensures Params(" " + p, room) == [p]
  {
    ParamStep(p, "", room);
    assert " " + p + "" == " " + p;
  }

  /** A line with a prefix reads as its verb and parameters. */
  lemma ReadPrefixed(b: Body)
    requires ProperHead(b) && !b.Pong?
    ensures ReadLine(Wire(b)) == Some(Message(Upper(Verb(b)), Params(" " + Rest(b), MAX_PARAMS)))
  {
    hide Params, Upper, Verb, Rest, Head;
    WireText(b);
    VerbMiddle(b);
    PrefixedLine(Head(b), Verb(b), Rest(b));
    assert [' '] + Rest(b) == " " + Rest(b);
    assert Wire(b)[|Wire(b)| - 2..] == CRLF;
  }

  lemma ReadJoined(prefix: string, chan: string)
    requires IsPrefix(prefix) && Middle(chan)
    ensures ReadLine(Wire(Joined(prefix, chan))) == Some(Message("JOIN", [chan]))
  {
    hide Params, Wire;
    ReadPrefixed(Joined(prefix, chan));
    OneParam(chan, MAX_PARAMS);
    assert Upper("JOIN") == "JOIN";
  }

  lemma ReadPrivMsg(prefix: string, to: string, msg: string)
    requires IsPrefix(prefix) && Middle(to) && msg != ""
    ensures ReadLine(Wire(PrivMsg(prefix, to, msg))) == Some(Message("PRIVMSG", [to, msg]))
  {
    hide Params, Wire;
    ReadPrefixed(PrivMsg(prefix, to, msg));
    TwoParams(to, msg, MAX_PARAMS);
    assert " " + (to + (" :" + msg)) == " " + to + (" :" + msg);
    assert Upper("PRIVMSG") == "PRIVMSG";
  }

  /** A parameter without a colon and one behind it. */
  lemma TwoParams(a: string, b: string, room: nat)
    requires Middle(a) && room > 1
    ensures Params(" " + a + (" :" + b), room) == [a, b]
  {
    hide Params;
    ParamStep(a, " :" + b, room);
    LastParam(b, room - 1);
  }

  lemma ReadTopicSet(prefix: string, chan: string, topic: string)
    requires IsPrefix(prefix) && Middle(chan)
    ensures ReadLine(Wire(TopicSet(prefix, chan, topic))) == Some(Message("TOPIC", [chan, topic]))
  {
    hide Params, Wire;
    ReadPrefixed(TopicSet(prefix, chan, topic));
    TwoParams(chan, topic, MAX_PARAMS);
    assert " " + (chan + " :" + topic) == " " + chan + (" :" + topic);
    assert Upper("TOPIC") == "TOPIC";
  }

  lemma ReadInvited(prefix: string, nick: string, chan: string)
    requires IsPrefix(prefix) && Middle(nick) && Middle(chan)
    ensures ReadLine(Wire(Invited(prefix, nick, chan))) == Some(Message("INVITE", [nick, chan]))
  {
    hide Params, Wire;
    ReadPrefixed(Invited(prefix, nick, chan));
    assert " " + (nick + " " + chan) == " " + nick + (" " + chan);
    ParamStep(nick, " " + chan, MAX_PARAMS);
    OneParam(chan, MAX_PARAMS - 1);
    assert [nick] + [chan] == [nick, chan];
    assert Upper("INVITE") == "INVITE";
  }

  /** A reason that is empty is not sent. */
  lemma ReadKicked(prefix: string, chan: string, nick: string, reason: string)
    requires IsPrefix(prefix) && Middle(nick) && Middle(chan)
    ensures ReadLine(Wire(Kicked(prefix, chan, nick, reason)))
         == Some(Message("KICK", if reason == "" then [chan, nick] else [chan, nick, reason]))
  {
    hide Params, Wire;
    var tail := Optional(" :", reason);
    ReadPrefixed(Kicked(prefix, chan, nick, reason));
    assert " " + (chan + " " + nick + tail) == " " + chan + (" " + nick + tail);
    ParamStep(chan, " " + nick + tail, MAX_PARAMS);
    if reason == "" {
      OneParam(nick, MAX_PARAMS - 1);
      assert " " + nick + tail == " " + nick;
      assert [chan] + [nick] == [chan, nick];
    } else {
      TwoParams(nick, reason, MAX_PARAMS - 1);
      assert [chan] + [nick, reason] == [chan, nick, reason];
    }
    assert Upper("KICK") == "KICK";
  }

  /** A line without a prefix. */
  lemma BareLine(verb: string, rest: string)
    requires Middle(verb) && (rest == "" || rest[0] == ' ')
    ensures ReadLine(verb + rest + CRLF) == Some(Message(Upper(verb), Params(rest, MAX_PARAMS)))
  {
    hide Params, Upper;
    var line := verb + rest;
    assert (line + CRLF)[..|line|] == line && (line + CRLF)[|line|..] == CRLF;
    assert line[0] == verb[0];
    WordOfConcat(verb, rest);
  }

  lemma ReadPong(token: string)
    ensures ReadLine(Wire(Pong(token))) == Some(Message("PONG", ["ircServ", token]))
  {
    assert Middle("PONG") && Middle("ircServ") && Upper("PONG") == "PONG";
    assert Wire(Pong(token)) == "PONG" + [' '] + ("ircServ" + [' '] + (":" + token)) + CRLF;
    hide ReadLine, Middle, Upper, Params, Wire;
    PongText("PONG", "ircServ", token);
    BareLine("PONG", " " + "ircServ" + (" :" + token));
    TwoParams("ircServ", token, MAX_PARAMS);
  }

  lemma PongText(a: string, b: string, token: string)
    ensures a + [' '] + (b + [' '] + (":" + token)) == a + (" " + b + (" :" + token))
  {
  }

  lemma ReadCap(target: string, word: string, text: string)
    requires Middle(target) && Middle(word)
    ensures ReadLine(Wire(Cap(target, " " + word + " :" + text))) == Some(Message("CAP", [target, word, text]))
    ensures Word(Wire(Cap(target, " " + word + " :" + text))) == ":ircServ"
  {
    hide Params, Wire, ReadLine, Middle;
    var b := Cap(target, " " + word + " :" + text);
    ReadPrefixed(b);
    FromServer(b);
    CapParams(target, word, text, MAX_PARAMS);
    assert Upper("CAP") == "CAP";
  }

  lemma CapParams(target: string, word: string, text: string, room: nat)
    requires Middle(target) && Middle(word) && room > 2
    ensures Params(" " + (target + (" " + word + " :" + text)), room) == [target, word, text]
  {
    hide Params, Middle;
    var tail := " " + word + (" :" + text);
    CapText(target, word, text);
    assert tail[0] == ' ';
    ParamStep(target, tail, room);
    TwoParams(word, text, room - 1);
    assert [target] + [word, text] == [target, word, text];
  }

  lemma CapText(target: string, word: string, text: string)
    ensures " " + (target + (" " + word + " :" + text)) == " " + target + (" " + word + (" :" + text))
  {
    assert " " + word + " :" + text == " " + word + (" :" + text);
  }

  lemma Glued(prefix: string, verb: string, rest: string)
    ensures prefix + [' '] + (verb + [' '] + rest) + CRLF == prefix + (" " + verb + " ") + rest + "\r\n"
  {
    var a, b := prefix + [' '] + (verb + [' '] + rest), prefix + (" " + verb + " ") + rest;
    assert [' '] + (verb + [' '] + rest) == (" " + verb + " ") + rest;
    assert a == prefix + ([' '] + (verb + [' '] + rest));
  }

  /** The lines to the letter. */
  lemma LinesToTheLetter(prefix: string, a: string, b: string, text: string)
    ensures Wire(Joined(prefix, a)) == prefix + (" " + "JOIN" + " ") + a + "\r\n"
    ensures text != "" ==>
      Wire(PrivMsg(prefix, a, text)) == prefix + (" " + "PRIVMSG" + " ") + (a + " :" + text) + "\r\n"
    ensures Wire(Kicked(prefix, a, b, "")) == prefix + (" " + "KICK" + " ") + (a + " " + b) + "\r\n"
    ensures text != "" ==>
      Wire(Kicked(prefix, a, b, text)) == prefix + (" " + "KICK" + " ") + (a + " " + b + " :" + text) + "\r\n"
    ensures Wire(Invited(prefix, a, b)) == prefix + (" " + "INVITE" + " ") + (a + " " + b) + "\r\n"
    ensures Wire(TopicSet(prefix, a, text)) == prefix + (" " + "TOPIC" + " ") + (a + " :" + text) + "\r\n"
    ensures Wire(ModeSet(prefix, a, text)) == prefix + (" " + "MODE" + " ") + (a + " " + text) + "\r\n"
  {
    assert a + (" :" + text) == a + " :" + text;
    assert a + " " + b + (" :" + text) == a + " " + b + " :" + text;
    assert a + " " + b + "" == a + " " + b;
    Glued(prefix, "JOIN", a);
    Glued(prefix, "PRIVMSG", a + " :" + text);
    Glued(prefix, "KICK", a + " " + b);
    Glued(prefix, "KICK", a + " " + b + " :" + text);
    Glued(prefix, "INVITE", a + " " + b);
    Glued(prefix, "TOPIC", a + " :" + text);
    Glued(prefix, "MODE", a + " " + text);
  }

  // ----- Numerics --------------------------------------------------------------------------------------

  /** The text at the end of a numeric, as it is written. */
  function Ending(num: nat): string {
    match num
    case 1 => ":Welcome to the ircServ"
    case 2 => ":Your host is ircServ," + " running version 1.0"
    case 3 => ":This server was created 2026-..-.."
    case 331 => ":No topic is set"
    case 366 => ":End of /NAMES list"
    case 401 => ":No such nick/channel"
    case 403 => ":No such channel"
    case 404 => ":Cannot send to channel"
    case 411 => ":No recipient given"
    case 412 => ":No text to send"
    case 421 => ":Unknown command"
    case 431 => ":No nickname given"
    case 432 => ":Erroneous nickname"
    case 433 => ":Nickname is already in use"
    case 441 => ":They aren't on that channel"
    case 442 => ":You're not on that channel"
    case 443 => ":is already on channel"
    case 451 => ":You have not registered"
    case 461 => ":Not enough parameters"
    case 462 => ":Unauthorized command"
    case 464 => ":Password incorrect"
    case 467 => ":Channel key already set"
    case 471 => ":Cannot join channel (+l)"
    case 472 => ":is unknown mode char to me for channel"
    case 473 => ":Cannot join channel (+i)"
    case 475 => ":Cannot join channel (+k)"
    case 482 => ":You're not channel operator"
    case _ => ""
  }

  /** The numeric has a text. */
  predicate Worded(num: nat) {
    || num in {1, 2, 3, 331, 366, 401, 403, 404, 411, 412, 421, 431, 432, 433, 441, 442, 443}
    || num in {451, 461, 462, 464, 467, 471, 472, 473, 475, 482}
  }

  /** The text of a numeric without its colon. */
  function TextOf(num: nat): string
    requires Worded(num)
  {
    Ending(num)[1..]
  }

  lemma WelcomeEndings(num: nat)
    requires Worded(num) && 1 <= num < 4
    ensures NumericMessage(num) == Ending(num) && Ending(num) != "" && Ending(num)[0] == ':'
  {
  }

  lemma ChannelEndings(num: nat)
    requires Worded(num) && 300 <= num < 400
    ensures NumericMessage(num) == Ending(num) && Ending(num) != "" && Ending(num)[0] == ':'
  {
  }

  lemma TargetEndings(num: nat)
    requires Worded(num) && 400 <= num < 430
    ensures NumericMessage(num) == Ending(num) && Ending(num) != "" && Ending(num)[0] == ':'
  {
  }

  lemma NickEndings(num: nat)
    requires Worded(num) && 430 <= num < 450
    ensures NumericMessage(num) == Ending(num) && Ending(num) != "" && Ending(num)[0] == ':'
  {
  }

  lemma CommandEndings(num: nat)
    requires Worded(num) && 450 <= num < 470
    ensures NumericMessage(num) == Ending(num) && Ending(num) != "" && Ending(num)[0] == ':'
  {
  }

  lemma ModeEndings(num: nat)
    requires Worded(num) && 470 <= num < 500
    ensures NumericMessage(num) == Ending(num) && Ending(num) != "" && Ending(num)[0] == ':'
  {
  }

  lemma TextsAre(num: nat)
    requires Worded(num)
    ensures Known(num) && NumericMessage(num) == ":" + TextOf(num)
  {
    hide NumericMessage, Ending;
    if num < 4 {
      WelcomeEndings(num);
    } else if num < 400 {
      ChannelEndings(num);
    } else if num < 430 {
      TargetEndings(num);
    } else if num < 450 {
      NickEndings(num);
    } else if num < 470 {
      CommandEndings(num);
    } else {
      ModeEndings(num);
    }
    var text := Ending(num);
    assert text == [text[0]] + text[1..];
  }

  lemma SilentTexts(num: nat)
    requires num in {324, 332, 341, 353}
    ensures Known(num) && NumericMessage(num) == ""
  {
  }

  /** The three digits of a numeric are its decimal digits. */
  lemma CodeDecimal(num: nat)
    requires num <= 999
    ensures |Code(num)| == 3 && AllDigits(Code(num)) && Decimal(Code(num)) == num && Upper(Code(num)) == Code(num)
  {
    var s := Code(num);
    assert s[..2][..1] == s[..1] && s[..1][..0] == "";
    assert Decimal(s[..1]) == num / 100 % 10;
    assert Decimal(s[..2]) == 10 * (num / 100 % 10) + num / 10 % 10;
    DigitsOf(num);
    assert forall i | 0 <= i < 3 :: Upper1(s[i]) == s[i];
  }

  /** A numeric comes from the server and reads as three digits and the target, then what it is about, then its
      text. */
  ghost predicate ReadsNumeric(t: string, num: nat, params: seq<string>) {
    && ReadLine(t).Some? && Word(t) == ":ircServ"
    && var m := ReadLine(t).value;
      |m.command| == 3 && AllDigits(m.command) && Decimal(m.command) == num && m.params == params
  }

  lemma FromServer(b: Body)
    requires (b.Numeric? && Known(b.num)) || b.Cap?
    ensures Word(Wire(b)) == ":ircServ"
  {
    var prefix := ":ircServ";
    assert Head(b) == prefix && Free(prefix, ' ');
    hide Verb, Rest, Head;
    var rest := Verb(b) + [' '] + Rest(b);
    PrefixAndRest(prefix, rest);
    WordOfConcat(prefix, [' '] + rest + CRLF);
  }

  lemma NumericRest(target: string, num: nat, msg: string)
    ensures " " + Rest(Numeric(target, num, msg))
         == " " + TargetName(target) + (Optional(" ", msg) + Optional(" ", NumericMessage(num)))
  {
    hide NumericMessage, TargetName, Optional;
  }

  /** Who a numeric is for: a nick, or a star as long as there is none. */
  function Addressed(target: string): string {
    if target == "" then "*" else target
  }

  lemma ReadNumeric(target: string, num: nat, msg: string)
    requires Known(num) && Middle(Addressed(target))
    ensures ReadsNumeric(Wire(Numeric(target, num, msg)), num,
      [Addressed(target)] + Params(Optional(" ", msg) + Optional(" ", NumericMessage(num)), MAX_PARAMS - 1))
  {
    hide Params, Wire, NumericMessage, Code, Middle, AllDigits, Decimal, Upper;
    var b, tail := Numeric(target, num, msg), Optional(" ", msg) + Optional(" ", NumericMessage(num));
    assert TargetName(target) == Addressed(target);
    CodeDecimal(num);
    ReadPrefixed(b);
    NumericRest(target, num, msg);
    FromServer(b);
    ParamStep(Addressed(target), tail, MAX_PARAMS);
  }

  /** A numeric about nothing. */
  lemma ReadNumericAlone(target: string, num: nat)
    requires Worded(num) && Middle(Addressed(target))
    ensures ReadsNumeric(Wire(Numeric(target, num, "")), num, [Addressed(target), TextOf(num)])
  {
    hide Params, Wire, NumericMessage, Middle, TextOf, Worded, Known, ReadLine;
    TextsAre(num);
    ReadNumeric(target, num, "");
    assert "" + (" " + (":" + TextOf(num))) == " :" + TextOf(num);
    LastParam(TextOf(num), MAX_PARAMS - 1);
  }

  lemma Spelled(about: string, text: string)
    requires about != ""
    ensures Optional(" ", about) + Optional(" ", ":" + text) == " " + about + (" :" + text)
  {
    assert " " + (":" + text) == " :" + text;
  }

  /** A numeric about one thing. */
  lemma ReadNumericOne(target: string, num: nat, p: string)
    requires Worded(num) && Middle(Addressed(target)) && Middle(p)
    ensures ReadsNumeric(Wire(Numeric(target, num, p)), num, [Addressed(target), p, TextOf(num)])
  {
    assert p != "" && MAX_PARAMS == 15;
    hide *;
    TextsAre(num);
    ReadNumeric(target, num, p);
    Spelled(p, TextOf(num));
    TwoParams(p, TextOf(num), MAX_PARAMS - 1);
    assert [Addressed(target)] + [p, TextOf(num)] == [Addressed(target), p, TextOf(num)];
  }

  /** A numeric about a nick and a channel. */
  lemma ReadNumericTwo(target: string, num: nat, p: string, q: string)
    requires Worded(num) && Middle(Addressed(target)) && Middle(p) && Middle(q)
    ensures ReadsNumeric(Wire(Numeric(target, num, p + " " + q)), num, [Addressed(target), p, q, TextOf(num)])
  {
    assert MAX_PARAMS == 15;
    hide *;
    TextsAre(num);
    ReadNumeric(target, num, p + " " + q);
    ThreeParams(p, q, TextOf(num), MAX_PARAMS - 1);
    Prepended(Addressed(target), p, q, TextOf(num));
  }

  lemma Prepended(a: string, p: string, q: string, text: string)
    ensures [a] + [p, q, text] == [a, p, q, text]
  {
  }

  lemma Regroup(p: string, q: string, b: string)
    ensures " " + (p + " " + q) + b == " " + p + (" " + q + b)
  {
  }

  lemma ThreeParams(p: string, q: string, text: string, room: nat)
    requires Middle(p) && Middle(q) && room > 2
    ensures Params(Optional(" ", p + " " + q) + Optional(" ", ":" + text), room) == [p, q, text]
  {
    assert p + " " + q != "";
    hide Middle, Params;
    Spelled(p + " " + q, text);
    var tail := " " + q + (" :" + text);
    Regroup(p, q, " :" + text);
    hide Optional;
    assert tail[0] == ' ';
    ParamStep(p, tail, room);
    TwoParams(q, text, room - 1);
    assert [p] + [q, text] == [p, q, text];
  }

  /** A topic or a list of members: the channel, and the rest of the line. */
  lemma ReadNumericText(target: string, num: nat, chan: string, text: string)
    requires num in {332, 353} && Middle(Addressed(target)) && Middle(chan)
    ensures ReadsNumeric(Wire(Numeric(target, num, chan + " :" + text)), num, [Addressed(target), chan, text])
  {
    assert MAX_PARAMS == 15;
    hide *;
    SilentTexts(num);
    ReadNumeric(target, num, chan + " :" + text);
    TextParams(chan, text, MAX_PARAMS - 1);
    assert [Addressed(target)] + [chan, text] == [Addressed(target), chan, text];
  }

  lemma TextParams(chan: string, text: string, room: nat)
    requires Middle(chan) && room > 1
    ensures Params(Optional(" ", chan + " :" + text) + Optional(" ", ""), room) == [chan, text]
  {
    hide Middle, Params;
    assert " " + (chan + " :" + text) + "" == " " + chan + (" :" + text);
    TwoParams(chan, text, room);
  }

  /** Modes of a channel, or an invitation that was sent. */
  lemma ReadNumericPair(target: string, num: nat, p: string, q: string)
    requires num in {324, 341} && Middle(Addressed(target)) && Middle(p) && Middle(q)
    ensures ReadsNumeric(Wire(Numeric(target, num, p + " " + q)), num, [Addressed(target), p, q])
  {
    assert MAX_PARAMS == 15;
    hide *;
    SilentTexts(num);
    ReadNumeric(target, num, p + " " + q);
    PairParams(p, q, MAX_PARAMS - 1);
    assert [Addressed(target)] + [p, q] == [Addressed(target), p, q];
  }

  lemma PairParams(p: string, q: string, room: nat)
    requires Middle(p) && Middle(q) && room > 1
    ensures Params(Optional(" ", p + " " + q) + Optional(" ", ""), room) == [p, q]
  {
    hide Middle, Params;
    Regroup(p, q, "");
    assert " " + q + "" == " " + q;
    ParamStep(p, " " + q, room);
    OneParam(q, room - 1);
  }

  /** The fourth line of the welcome. */
  lemma ReadMyInfo(target: string)
    requires Middle(Addressed(target))
    ensures ReadsNumeric(Wire(Numeric(target, 4, "")), 4, [Addressed(target), "ircServ", "1.0"])
  {
    assert NumericMessage(4) == "ircServ" + " " + "1.0" && MAX_PARAMS == 15;
    assert Middle("ircServ") && Middle("1.0");
    assert Known(4);
    hide *;
    ReadNumeric(target, 4, "");
    InfoParams("ircServ", "1.0", MAX_PARAMS - 1);
    assert [Addressed(target)] + ["ircServ", "1.0"] == [Addressed(target), "ircServ", "1.0"];
  }

  lemma InfoParams(p: string, q: string, room: nat)
    requires Middle(p) && Middle(q) && room > 1
    ensures Params(Optional(" ", "") + Optional(" ", p + " " + q), room) == [p, q]
  {
    hide Middle, Params;
    Regroup(p, q, "");
    assert "" + (" " + (p + " " + q)) == " " + (p + " " + q) + "";
    assert " " + q + "" == " " + q;
    ParamStep(p, " " + q, room);
    OneParam(q, room - 1);
  }

  // ----- The sender of a line ---------------------------------------------------------------------------

  /** What is before the first `c`, and what is after it. */
  function Before(s: string, c: char): string {
    if s == "" || s[0] == c then "" else [s[0]] + Before(s[1..], c)
  }

  function Behind(s: string, c: char): string {
    if s == "" then "" else if s[0] == c then s[1..] else Behind(s[1..], c)
  }

  /** What is before the last `c`. */
  function BeforeLast(s: string, c: char): string {
    if s == "" then "" else if s[|s| - 1] == c then s[..|s| - 1] else BeforeLast(s[..|s| - 1], c)
  }

  /** What is behind the last `c`. */
  function BehindLast(s: string, c: char): string {
    if s == "" || s[|s| - 1] == c then "" else BehindLast(s[..|s| - 1], c) + [s[|s| - 1]]
  }

  /** The three parts of the prefix ":nick!user@host". */
  function Sender(t: string): (string, string, string) {
    var prefix := Word(t);
    if prefix == "" then ("", "", "")
    else
      var behind := Behind(prefix[1..], '!');
      (Before(prefix[1..], '!'), BeforeLast(behind, '@'), BehindLast(behind, '@'))
  }

  lemma {:induction false} BeforeFirst(a: string, b: string, c: char)
    requires Free(a, c)
    ensures Before(a + [c] + b, c) == a && Behind(a + [c] + b, c) == b
  {
    var s := a + [c] + b;
    if a == "" {
      assert s[1..] == b;
    } else {
      BeforeFirst(a[1..], b, c);
      assert s[1..] == a[1..] + [c] + b;
      assert a == [a[0]] + a[1..];
    }
  }

  lemma {:induction false} BeforeTheLast(a: string, b: string, c: char)
    requires Free(b, c)
    ensures BeforeLast(a + [c] + b, c) == a && BehindLast(a + [c] + b, c) == b
    decreases |b|
  {
    var s := a + [c] + b;
    if b == "" {
      assert s[..|s| - 1] == a;
    } else {
      BeforeTheLast(a, b[..|b| - 1], c);
      assert s[..|s| - 1] == a + [c] + b[..|b| - 1];
      assert b[|b| - 1] in b;
      assert b == b[..|b| - 1] + [b[|b| - 1]];
    }
  }

  lemma PrefixParts(nick: string, user: string, host: string)
    ensures (":" + nick + "!" + user + (['@'] + host))[1..] == nick + ['!'] + (user + ['@'] + host)
  {
    var s := nick + ['!'] + (user + ['@'] + host);
    assert ":" + nick + "!" + user + (['@'] + host) == [':'] + s;
  }

  /** The prefix of a line gives back who sent it, even if the user name has a '!' or a '@'. */
  lemma SenderReads(nick: string, user: string, rest: string)
    requires nick != "" && user != "" && Free(nick, '!') && Free(nick, ' ') && Free(user, ' ')
    requires rest == "" || rest[0] == ' '
    ensures Sender(BuildPrefix(nick, user) + rest) == (nick, user, "ircServ")
  {
    var p := BuildPrefix(nick, user);
    BuildPrefixFree(nick, user, ' ');
    WordOfConcat(p, rest);
    assert "@ircServ" == ['@'] + "ircServ";
    PrefixParts(nick, user, "ircServ");
    hide BuildPrefix;
    BeforeFirst(nick, user + ['@'] + "ircServ", '!');
    BeforeTheLast(user, "ircServ", '@');
  }

  lemma SenderOfWire(s: State, c: Client, b: Body)
    requires Inv(s) && TextsOk(s) && c in s.clients && s.clients[c].registered
    requires ProperHead(b) && Head(b) == Prefix(s, c)
    ensures Sender(Wire(b)) == (s.clients[c].nickname, s.clients[c].username, "ircServ")
  {
    NickChars(s, c);
    assert s.clients[c].Complete() && Prefix(s, c) == BuildPrefix(s.clients[c].nickname, s.clients[c].username);
    hide *;
    WireText(b);
    var rest := Verb(b) + [' '] + Rest(b);
    PrefixAndRest(Prefix(s, c), rest);
    SenderReads(s.clients[c].nickname, s.clients[c].username, [' '] + rest + CRLF);
  }

  lemma PrefixAndRest(prefix: string, rest: string)
    ensures prefix + [' '] + rest + CRLF == prefix + ([' '] + rest + CRLF)
  {
  }

  // ----- What a connection reads of a PRIVMSG --------------------------------------------------------------

  /** A message as its reader sees it. */
  datatype Note = Note(nick: string, user: string, to: string, text: string)

  function NoteOf(t: string): seq<Note> {
    match ReadLine(t)
    case None => []
    case Some(m) =>
      if m.command == "PRIVMSG" && |m.params| == 2
        then [Note(Sender(t).0, Sender(t).1, m.params[0], m.params[1])] else []
  }

  /** The messages among the lines that a connection is sent. */
  function Notes(lines: seq<string>): seq<Note> {
    if lines == [] then [] else NoteOf(lines[0]) + Notes(lines[1..])
  }

  lemma Associative<T>(a: seq<T>, b: seq<T>, c: seq<T>)
    ensures a + (b + c) == a + b + c
  {
  }

  lemma {:induction false} NotesConcat(a: seq<string>, b: seq<string>)
    ensures Notes(a + b) == Notes(a) + Notes(b)
  {
    hide NoteOf;
    if a == [] {
      assert a + b == b;
    } else {
      NotesConcat(a[1..], b);
      assert (a + b)[0] == a[0] && (a + b)[1..] == a[1..] + b;
      Associative(NoteOf(a[0]), Notes(a[1..]), Notes(b));
    }
  }

  /** What one connection reads of one target of a PRIVMSG. */
  ghost function NotesOf(s: State, c: Client, target: string, text: string, fd: int): seq<Note>
    requires c in s.clients
  {
    var hears :=
      if target in s.channels then
        c in s.channels[target].members && fd != c.socketFd && Hears(s, target, fd)
      else target in s.byNick && fd == s.byNick[target].socketFd;
    if hears then [Note(s.clients[c].nickname, s.clients[c].username, target, text)] else []
  }

  ghost function AllNotes(s: State, c: Client, targets: seq<string>, text: string, fd: int): seq<Note>
    requires c in s.clients
  {
    if targets == [] then [] else NotesOf(s, c, targets[0], text, fd) + AllNotes(s, c, targets[1..], text, fd)
  }

  lemma NumericIsNoNote(target: string, num: nat, msg: string)
    requires Known(num)
    ensures NoteOf(Wire(Numeric(target, num, msg))) == []
  {
    hide Params, Wire;
    ReadPrefixed(Numeric(target, num, msg));
    assert |Upper(Code(num))| == 3;
  }

  lemma TargetIsMiddle(s: State, target: string)
    requires Inv(s) && (target in s.channels || target in s.byNick)
    ensures Middle(target)
  {
    if target in s.channels {
      assert ChannelOk(s, target, s.channels[target]);
    } else {
      assert ValidNick(target) && NickStart(target[0]);
    }
    NamesAreLines(target);
  }

  lemma MessageIsNote(s: State, c: Client, target: string, text: string)
    requires Inv(s) && TextsOk(s) && c in s.clients && s.clients[c].registered && text != ""
    requires target in s.channels || target in s.byNick
    ensures NoteOf(Wire(PrivMsg(Prefix(s, c), target, text)))
         == [Note(s.clients[c].nickname, s.clients[c].username, target, text)]
  {
    var b := PrivMsg(Prefix(s, c), target, text);
    TargetIsMiddle(s, target);
    PrefixFree(s, c);
    hide Inv, TextsOk, Wire, ReadLine, Sender;
    ReadPrivMsg(Prefix(s, c), target, text);
    SenderOfWire(s, c, b);
  }

  lemma OneLineNotes(b: Body)
    ensures Notes(Lines([b])) == NoteOf(Wire(b))
  {
    hide Wire, NoteOf;
    assert [b][1..] == [];
    assert Lines([b]) == [Wire(b)] + Lines([]);
    assert Lines([b])[1..] == [];
    assert Notes([]) == [];
  }

  lemma ShareNotes(s: State, c: Client, target: string, text: string, fd: int)
    requires Inv(s) && TextsOk(s) && c in s.clients && s.clients[c].registered && text != ""
    ensures Notes(Lines(Share(s, c, target, text, fd))) == NotesOf(s, c, target, text, fd)
  {
    NoEmptyTarget(s);
    hide Inv, TextsOk, Wire, NoteOf, Notes, Lines;
    var share, name := Share(s, c, target, text, fd), TargetName(s.Rec(c).nickname);
    assert Notes(Lines([])) == [] by { EmptyNotes(); }
    if share != [] {
      assert share == [share[0]];
      OneLineNotes(share[0]);
      if share[0].Numeric? {
        NumericIsNoNote(name, share[0].num, share[0].msg);
      } else {
        MessageIsNote(s, c, target, text);
      }
    }
  }

  lemma EmptyNotes()
    ensures Notes(Lines([])) == []
  {
  }

  lemma NoEmptyTarget(s: State)
    requires Inv(s)
    ensures "" !in s.byNick && "" !in s.channels
  {
    NoEmptyNick(s);
    assert forall n | n in s.channels :: ChannelOk(s, n, s.channels[n]);
  }

  lemma {:induction false} SharesNotes(s: State, c: Client, targets: seq<string>, text: string, fd: int)
    requires Inv(s) && TextsOk(s) && c in s.clients && s.clients[c].registered && text != ""
    ensures Notes(Lines(Shares(s, c, targets, text, fd))) == AllNotes(s, c, targets, text, fd)
  {
    hide Inv, TextsOk, Share, NotesOf, Notes, Lines;
    if targets == [] {
      EmptyNotes();
    } else {
      ShareNotes(s, c, targets[0], text, fd);
      SharesNotes(s, c, targets[1..], text, fd);
      var a, b := Share(s, c, targets[0], text, fd), Shares(s, c, targets[1..], text, fd);
      LinesConcat(a, b);
      NotesConcat(Lines(a), Lines(b));
    }
  }

  /** What a connection reads of a PRIVMSG: for each target that reaches it, in order, the sender's nick and user
      name, the target and the text; and no other messages. */
  lemma PrivMsgRead(s: State, fd: int, m: Message, to: int)
    requires Inv(s) && TextsOk(s) && fd in s.byFd && m.command == "PRIVMSG" && s.Rec(s.byFd[fd]).registered
    requires |m.params| >= 2 && m.params[1] != ""
    ensures s.byFd[fd] in s.clients
    ensures Notes(LinesTo(Dispatch(s, fd, m).r, to))
         == AllNotes(s, s.byFd[fd], Split(m.params[0], ','), m.params[1], to)
  {
    CommandNames(m.command);
    PrivMsgDelivered(s, fd, m, to);
    SenderLives(s, fd);
    hide Inv, TextsOk, Dispatch, Notes, Lines, AllNotes, Shares;
    SharesNotes(s, s.byFd[fd], Split(m.params[0], ','), m.params[1], to);
  }
}
