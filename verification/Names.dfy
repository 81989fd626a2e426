// The member list a joining client is sent can be read back.
module Names {
  import opened Text
  import opened Clients
  import opened Channels
  import opened Replies
  import opened Model
  import opened Commands
  import opened Safety
  import opened Answers

  /** A nick as the member line shows it. */
  function Marked(s: State, ch: ChanRec, m: Client): string {
    (if m in ch.operators then "@" else "") + s.Rec(m).nickname
  }

  /** Reading one entry of a member line: the nick, and whether it is an operator's. */
  function Unmark(entry: string): (string, bool) {
    if entry != "" && entry[0] == '@' then (entry[1..], true) else (entry, false)
  }

  /** The entries of a 353 line: the words from the one that starts with ':'. */
  function ReadNames(t: string): seq<string> {
    var w := Words(t);
    if |w| > 4 && w[4] != "" && w[4][0] == ':' then [w[4][1..]] + w[5..] else []
  }

  /** The entries in the order the set is walked. */
  ghost function Entries(s: State, ch: ChanRec, rest: set<Client>): seq<string> {
    if rest == {} then [] else [Marked(s, ch, First(rest))] + Entries(s, ch, rest - {First(rest)})
  }

  /** All these clients have a nick that passed the validity check. */
  ghost predicate Nicked(s: State, ms: set<Client>) {
    forall m | m in ms :: ValidNick(s.Rec(m).nickname)
  }

  lemma MarkedWord(s: State, ch: ChanRec, m: Client)
    requires ValidNick(s.Rec(m).nickname)
    ensures Marked(s, ch, m) != "" && Free(Marked(s, ch, m), ' ')
    ensures Unmark(Marked(s, ch, m)) == (s.Rec(m).nickname, m in ch.operators)
  {
    var nick := s.Rec(m).nickname;
    assert NickStart(nick[0]) && nick[0] != '@';
    assert ("@" + nick)[1..] == nick;
    assert "" + nick == nick;
  }

  /** Appending one entry to a line that already has some. */
  function Appended(line: string, entry: string): string {
    (if line == "" then "" else line + " ") + entry
  }

  /** The loop of _notifyMembers glues the entries with spaces. */
  lemma {:induction false} MemberLineGlues(s: State, ch: ChanRec, rest: set<Client>, line: string)
    requires Nicked(s, rest) && rest != {}
    ensures MemberLine(s, ch, rest, line) == Appended(line, Glue(Entries(s, ch, rest), ' '))
  {
    var m := First(rest);
    var rest', entry := rest - {m}, Marked(s, ch, m);
    MarkedWord(s, ch, m);
    assert Appended(line, entry)
        == (if line == "" then "" else line + " ") + (if m in ch.operators then "@" else "") + s.Rec(m).nickname;
    assert MemberLine(s, ch, rest, line) == MemberLine(s, ch, rest', Appended(line, entry));
    if rest' == {} {
      assert Entries(s, ch, rest) == [entry];
    } else {
      MemberLineGlues(s, ch, rest', Appended(line, entry));
      GlueOne(entry, Entries(s, ch, rest'), line);
    }
  }

  lemma GlueOne(entry: string, later: seq<string>, line: string)
    requires later != [] && entry != ""
    ensures Appended(line, Glue([entry] + later, ' ')) == Appended(Appended(line, entry), Glue(later, ' '))
  {
    assert ([entry] + later)[1..] == later;
    var tail := Glue(later, ' ');
    assert Glue([entry] + later, ' ') == entry + [' '] + tail;
    assert line + " " + (entry + [' '] + tail) == (line + " " + entry) + [' '] + tail;
  }

  lemma {:induction false} EntriesOrder(s: State, ch: ChanRec, rest: set<Client>)
    ensures |Entries(s, ch, rest)| == |Order(rest)|
    ensures forall i | 0 <= i < |Order(rest)| :: Entries(s, ch, rest)[i] == Marked(s, ch, Order(rest)[i])
  {
    if rest == {} {
    } else {
      EntriesOrder(s, ch, rest - {First(rest)});
    }
  }

  /** The line of a 353 gives back its entries. */
  lemma ReadNamesBack(target: string, n: string, entries: seq<string>)
    requires Free(TargetName(target), ' ') && Free(n, ' ')
    requires entries != [] && AllFree(entries, ' ')
    ensures ReadNames(Wire(Numeric(target, 353, n + " :" + Glue(entries, ' ')))) == entries
  {
    var b := Numeric(target, 353, n + " :" + Glue(entries, ' '));
    WireVerb(b);
    var first := [[':'] + entries[0]] + entries[1..];
    GluePrepend(':', entries, ' ');
    assert entries[0] in entries;
    assert forall e | e in entries[1..] :: e in entries;
    SplitGlue(first, ' ');
    var line := Glue(first, ' ');
    RestOf353(target, n, Glue(entries, ' '));
    TwoWords(TargetName(target), n, line);
    WordsOf353(Words(Wire(b)), [Head(b), Verb(b)], [TargetName(target), n], first, entries);
  }

  lemma RestOf353(target: string, n: string, line: string)
    ensures Rest(Numeric(target, 353, n + " :" + line)) == TargetName(target) + [' '] + (n + [' '] + ([':'] + line))
  {
    assert n + " :" + line == n + [' '] + ([':'] + line);
    assert NumericMessage(353) == "";
  }

  lemma WordsOf353(w: seq<string>, a: seq<string>, b: seq<string>, first: seq<string>, entries: seq<string>)
    requires |a| == 2 && |b| == 2 && entries != [] && first == [[':'] + entries[0]] + entries[1..]
    requires w == a + (b + first)
    ensures w[4] == [':'] + entries[0] && w[4][1..] == entries[0] && w[5..] == entries[1..]
    ensures [w[4][1..]] + w[5..] == entries
  {
    assert w[4] == first[0];
    assert w[5..] == first[1..] == entries[1..];
  }

  /** What the entries say: nicks, and whether each is an operator's. */
  function Said(names: seq<string>): set<(string, bool)> {
    set e | e in names :: Unmark(e)
  }

  /** What is the case. */
  ghost function Truth(s: State, ch: ChanRec): set<(string, bool)> {
    set m | m in ch.members :: (s.Rec(m).nickname, m in ch.operators)
  }

  /** `names` tells exactly who is in the channel, each once, and who operates it. */
  ghost predicate Tells(names: seq<string>, s: State, ch: ChanRec) {
    && Said(names) == Truth(s, ch)
    && |names| == |ch.members|
    && forall i, j | 0 <= i < j < |names| :: Unmark(names[i]).0 != Unmark(names[j]).0
  }

  lemma EntryReads(s: State, ch: ChanRec, i: nat)
    requires Nicked(s, ch.members) && i < |Order(ch.members)|
    ensures i < |Entries(s, ch, ch.members)|
    ensures var e, m := Entries(s, ch, ch.members)[i], Order(ch.members)[i];
      m in ch.members && Unmark(e) == (s.Rec(m).nickname, m in ch.operators) && Free(e, ' ')
  {
    OrderExact(ch.members);
    EntriesOrder(s, ch, ch.members);
    MarkedWord(s, ch, Order(ch.members)[i]);
  }

  lemma EntriesSay(s: State, ch: ChanRec)
    requires Nicked(s, ch.members)
    ensures Said(Entries(s, ch, ch.members)) == Truth(s, ch)
  {
    var names, order := Entries(s, ch, ch.members), Order(ch.members);
    OrderExact(ch.members);
    EntriesOrder(s, ch, ch.members);
    forall x | x in Said(names) ensures x in Truth(s, ch) {
      var i :| 0 <= i < |names| && Unmark(names[i]) == x;
      EntryReads(s, ch, i);
    }
    forall x | x in Truth(s, ch) ensures x in Said(names) {
      var m :| m in ch.members && x == (s.Rec(m).nickname, m in ch.operators);
      var i :| 0 <= i < |order| && order[i] == m;
      EntryReads(s, ch, i);
      assert names[i] in names;
    }
  }

  lemma EntriesTell(s: State, ch: ChanRec)
    requires Nicked(s, ch.members)
    requires forall a, b | a in ch.members && b in ch.members && s.Rec(a).nickname == s.Rec(b).nickname :: a == b
    ensures Tells(Entries(s, ch, ch.members), s, ch) && AllFree(Entries(s, ch, ch.members), ' ')
  {
    var names, order := Entries(s, ch, ch.members), Order(ch.members);
    OrderExact(ch.members);
    EntriesOrder(s, ch, ch.members);
    EntriesSay(s, ch);
    forall i | 0 <= i < |names| ensures Free(names[i], ' ') {
      EntryReads(s, ch, i);
    }
    forall i, j | 0 <= i < j < |names| ensures Unmark(names[i]).0 != Unmark(names[j]).0 {
      EntryReads(s, ch, i);
      EntryReads(s, ch, j);
      assert order[i] != order[j];
    }
  }

  lemma NamesBody(s: State, c: Client, ch: ChanRec)
    requires Nicked(s, ch.members) && ch.members != {}
    ensures NotifyMembers(s, c, ch)[0].body
         == Numeric(TargetName(s.Rec(c).nickname), 353, ch.name + " :" + Glue(Entries(s, ch, ch.members), ' '))
  {
    MemberLineGlues(s, ch, ch.members, "");
    var line := Glue(Entries(s, ch, ch.members), ' ');
    assert Appended("", line) == line;
  }

  /** Whoever reads the 353 of a channel learns exactly who is in it, each once, and who operates it. */
  lemma NamesDecodable(s: State, c: Client, n: string)
    requires Inv(s) && c in s.clients && n in s.channels
    ensures Tells(ReadNames(Wire(NotifyMembers(s, c, s.channels[n])[0].body)), s, s.channels[n])
  {
    var ch := s.channels[n];
    MembersNicked(s, n);
    EntriesTell(s, ch);
    NamesBody(s, c, ch);
    NickChars(s, c);
    NamesAreLines(n);
    ReadNamesBack(TargetName(s.Rec(c).nickname), n, Entries(s, ch, ch.members));
  }

  lemma MembersNicked(s: State, n: string)
    requires Inv(s) && n in s.channels
    ensures s.channels[n].name == n && ValidChannelName(n) && s.channels[n].members != {}
    ensures Nicked(s, s.channels[n].members)
    ensures forall a, b | a in s.channels[n].members && b in s.channels[n].members
              && s.Rec(a).nickname == s.Rec(b).nickname :: a == b
  {
    assert ChannelOk(s, n, s.channels[n]);
  }

  /** A successful JOIN sends the sender one copy of the announcement, the topic line and then the
      member list of the channel as it is from then on. */
  lemma JoinNames(s: State, c: Client, name: string, key: string)
    requires Inv(s) && c in s.clients && s.clients[c].registered
    requires JoinOne(s, c, name, key).s != s
    ensures var t := JoinOne(s, c, name, key);
      && Inv(t.s) && name in t.s.channels && c in t.s.channels[name].members
      && t.r == JoinReplies(t.s, c, t.s.channels[name])
      && NotifyMembers(t.s, c, t.s.channels[name])[0] in t.r
  {
    JoinOneKeeps(s, c, name, key);
    var t := JoinOne(s, c, name, key);
    var ch := t.s.channels[name];
    assert t.s.Rec(c) == s.Rec(c);
    SameMemberLine(s, t.s, ch, ch.members, "");
    var names := NotifyMembers(t.s, c, ch);
    assert t.r == Deliver(ch.members, null, Joined(Prefix(s, c), ch.name)) + NotifyTopic(s, c, ch) + names;
    assert names[0] in names;
  }

  lemma {:induction false} SameMemberLine(s: State, t: State, ch: ChanRec, rest: set<Client>, line: string)
    requires s.clients == t.clients
    ensures MemberLine(s, ch, rest, line) == MemberLine(t, ch, rest, line)
  {
    if rest == {} {
    } else {
      var m := First(rest);
      SameMemberLine(s, t, ch, rest - {m},
        (if line == "" then "" else line + " ") + (if m in ch.operators then "@" else "") + s.Rec(m).nickname);
    }
  }
}
