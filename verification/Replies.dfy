// src/ReplyBuilder.cpp. A reply is kept as the ReplyBuilder call that made it, a `Body`;
// `Wire` is the string that call returns.
module Replies {
  import opened Text

  datatype Body =
    | Numeric(target: string, num: nat, msg: string)
    | Joined(prefix: string, chan: string)
    | PrivMsg(prefix: string, to: string, msg: string)
    | Kicked(prefix: string, chan: string, nick: string, reason: string)
    | Invited(prefix: string, nick: string, chan: string)
    | TopicSet(prefix: string, chan: string, topic: string)
    | ModeSet(prefix: string, chan: string, modeStr: string)
    | Pong(token: string)
    | Cap(target: string, rest: string)

  /** One t_reply of a CommandResult. */
  datatype Reply = Reply(fd: int, body: Body)

  const CRLF := "\r\n"

  // ----- The numeric table -------------------------------------------------------------------

  /** The numerics that have a text; ReplyBuilder returns "" for any other. */
  predicate Known(num: nat) {
    1 <= num <= 4 || num in {324, 331, 332, 341, 353, 366}
    || num in {401, 403, 404, 411, 412, 421, 431, 432, 433, 441, 442, 443}
    || num in {451, 461, 462, 464, 467, 471, 472, 473, 475, 482}
  }

  function Digit(d: nat): (c: char)
    requires d < 10
    ensures IsDigit(c)
  {
    (d + '0' as int) as char
  }

  /** The three digits of a numeric. */
  function Code(num: nat): (r: string)
    ensures |r| == 3 && forall x | x in r :: IsDigit(x)
  {
    [Digit(num / 100 % 10), Digit(num / 10 % 10), Digit(num % 10)]
  }

  function WelcomeText(num: nat): (r: string)
    ensures Free(r, '\n')
  {
    if num == 1 then ":Welcome to the ircServ"
    else if num == 2 then ":Your host is ircServ," + " running version 1.0"
    else ""
  }

  function CreatedText(num: nat): (r: string)
    ensures Free(r, '\n')
  {
    if num == 3 then ":This server was created 2026-..-.."
    else if num == 4 then "ircServ 1.0"
    else ""
  }

  function ChannelReplyText(num: nat): (r: string)
    ensures Free(r, '\n')
  {
    if num == 331 then ":No topic is set"
    else if num == 366 then ":End of /NAMES list"
    else ""
  }

  function TargetErrorText(num: nat): (r: string)
    ensures Free(r, '\n')
  {
    if num == 401 then ":No such nick/channel"
    else if num == 403 then ":No such channel"
    else if num == 404 then ":Cannot send to channel"
    else if num == 411 then ":No recipient given"
    else if num == 412 then ":No text to send"
    else if num == 421 then ":Unknown command"
    else ""
  }

  function NickErrorText(num: nat): (r: string)
    ensures Free(r, '\n')
  {
    if num == 431 then ":No nickname given"
    else if num == 432 then ":Erroneous nickname"
    else if num == 433 then ":Nickname is already in use"
    else if num == 441 then ":They aren't on that channel"
    else if num == 442 then ":You're not on that channel"
    else if num == 443 then ":is already on channel"
    else ""
  }

  function CommandErrorText(num: nat): (r: string)
    ensures Free(r, '\n')
  {
    if num == 451 then ":You have not registered"
    else if num == 461 then ":Not enough parameters"
    else if num == 462 then ":Unauthorized command"
    else if num == 464 then ":Password incorrect"
    else if num == 467 then ":Channel key already set"
    else ""
  }

  function ChannelErrorText(num: nat): (r: string)
    ensures Free(r, '\n')
  {
    if num == 471 then ":Cannot join channel (+l)"
    else if num == 472 then ":is unknown mode char to me for channel"
    else if num == 473 then ":Cannot join channel (+i)"
    else if num == 475 then ":Cannot join channel (+k)"
    else if num == 482 then ":You're not channel operator"
    else ""
  }

  /** ReplyBuilder::getNumericMessage */
  function NumericMessage(num: nat): (r: string)
    ensures Free(r, '\n')
  {
    if num < 3 then WelcomeText(num)
    else if num < 300 then CreatedText(num)
    else if num < 400 then ChannelReplyText(num)
    else if num < 430 then TargetErrorText(num)
    else if num < 450 then NickErrorText(num)
    else if num < 470 then CommandErrorText(num)
    else ChannelErrorText(num)
  }

  /** ReplyBuilder::getValidTargetName */
  function TargetName(nick: string): string {
    if nick == "" then "*" else nick
  }

  function BuildPrefix(nick: string, user: string): string {
    ":" + TargetName(nick) + "!" + (if user == "" then "unknown" else user) + "@ircServ"
  }

  /** A string after a separating space, or nothing at all when it is empty. */
  function Optional(lead: string, s: string): string {
    if s == "" then "" else lead + s
  }

  // Every reply reads "head verb rest"; the three parts, per ReplyBuilder function.

  function Head(b: Body): string {
    match b
    case Numeric(_, _, _) => ":ircServ"
    case Pong(_) => "PONG"
    case Cap(_, _) => ":ircServ"
    case _ => b.prefix
  }

  function Verb(b: Body): string {
    match b
    case Numeric(_, num, _) => Code(num)
    case Joined(_, _) => "JOIN"
    case PrivMsg(_, _, _) => "PRIVMSG"
    case Kicked(_, _, _, _) => "KICK"
    case Invited(_, _, _) => "INVITE"
    case TopicSet(_, _, _) => "TOPIC"
    case ModeSet(_, _, _) => "MODE"
    case Pong(_) => "ircServ"
    case Cap(_, _) => "CAP"
  }

  function Rest(b: Body): string {
    match b
    case Numeric(target, num, msg) => TargetName(target) + Optional(" ", msg) + Optional(" ", NumericMessage(num))
    case Joined(_, chan) => chan
    case PrivMsg(_, to, msg) => to + Optional(" :", msg)
    case Kicked(_, chan, nick, reason) => chan + " " + nick + Optional(" :", reason)
    case Invited(_, nick, chan) => nick + " " + chan
    case TopicSet(_, chan, topic) => chan + " :" + topic
    case ModeSet(_, chan, modeStr) => chan + " " + modeStr
    case Pong(token) => ":" + token
    case Cap(target, rest) => target + rest
  }

  function Wire(b: Body): string {
    if b.Numeric? && !Known(b.num) then ""
    else Head(b) + [' '] + (Verb(b) + [' '] + Rest(b)) + CRLF
  }

  // ----- Framing --------------------------------------------------------------------------

  /** One line of output: its only newline is its last character. */
  predicate Framed(t: string) {
    t != "" && t[|t| - 1] == '\n' && Free(t[..|t| - 1], '\n')
  }

  /** Every string the call was given has no newline, and the numeric exists. */
  predicate OneLine(b: Body) {
    match b
    case Numeric(target, num, msg) => Known(num) && Free(target, '\n') && Free(msg, '\n')
    case Joined(prefix, chan) => Free(prefix, '\n') && Free(chan, '\n')
    case PrivMsg(prefix, to, msg) => Free(prefix, '\n') && Free(to, '\n') && Free(msg, '\n')
    case Kicked(prefix, chan, nick, reason) =>
      Free(prefix, '\n') && Free(chan, '\n') && Free(nick, '\n') && Free(reason, '\n')
    case Invited(prefix, nick, chan) => Free(prefix, '\n') && Free(nick, '\n') && Free(chan, '\n')
    case TopicSet(prefix, chan, topic) => Free(prefix, '\n') && Free(chan, '\n') && Free(topic, '\n')
    case ModeSet(prefix, chan, modeStr) => Free(prefix, '\n') && Free(chan, '\n') && Free(modeStr, '\n')
    case Pong(token) => Free(token, '\n')
    case Cap(target, rest) => Free(target, '\n') && Free(rest, '\n')
  }

  /** A text followed by CR LF is one line exactly when the text has no newline. */
  lemma FramedText(t: string)
    ensures Framed(t + CRLF) <==> Free(t, '\n')
  {
    var u := t + CRLF;
    assert u[..|u| - 1] == t + "\r";
    assert forall x | x in t :: x in t + "\r";
  }

  lemma PartsOneLine(b: Body)
    requires OneLine(b)
    ensures Free(Head(b), '\n') && Free(Verb(b), '\n') && Free(Rest(b), '\n')
  {
  }

  /** Exact framing: whatever is sent for a one-line body is one line. */
  lemma WireFramed(b: Body)
    requires OneLine(b)
    ensures Framed(Wire(b))
  {
    PartsOneLine(b);
    FramedText(Head(b) + [' '] + (Verb(b) + [' '] + Rest(b)));
  }

  // ----- The words of a line ---------------------------------------------------------------

  /** The line without its CR LF, cut at every space. */
  function Words(t: string): seq<string> {
    if |t| < 2 then [] else Split(t[..|t| - 2], ' ')
  }

  lemma WordsOf(text: string)
    ensures Words(text + CRLF) == Split(text, ' ')
  {
    assert (text + CRLF)[..|text|] == text;
  }

  /** Where the first two words end, the rest of a line is what follows. */
  lemma TwoWords(a: string, b: string, rest: string)
    requires Free(a, ' ') && Free(b, ' ')
    ensures Split(a + [' '] + (b + [' '] + rest), ' ') == [a, b] + Split(rest, ' ')
  {
    SplitHead(b, rest, ' ');
    SplitHead(a, b + [' '] + rest, ' ');
  }

  /** The command word of a line: its second word. */
  function CommandWord(t: string): string {
    var w := Words(t);
    if |w| < 2 then "" else w[1]
  }

  /** The line starts with a prefix, but for PONG. */
  predicate ProperHead(b: Body) {
    Free(Head(b), ' ') && (b.Pong? || (Head(b) != "" && Head(b)[0] == ':')) && (b.Numeric? ==> Known(b.num))
  }

  /** A client can tell replies apart by their second word. */
  lemma WireVerb(b: Body)
    requires ProperHead(b)
    ensures Words(Wire(b)) == [Head(b), Verb(b)] + Split(Rest(b), ' ')
    ensures CommandWord(Wire(b)) == Verb(b)
  {
    WordsOf(Head(b) + [' '] + (Verb(b) + [' '] + Rest(b)));
    TwoWords(Head(b), Verb(b), Rest(b));
  }
}
