// The input side of src/Server.cpp: one connection's bytes, in any chunks, to lines.
module Framing {
  import opened Text

  // ----- What framing means, on the whole stream ----------------------------------------------

  /** The characters that are not dropped: everything but the control characters below 0x20,
      CR and LF excepted. */
  predicate Kept(c: char) { c >= ' ' || c == '\r' || c == '\n' }

  function Filtered(s: string): string {
    if s == "" then ""
    else if Kept(s[0]) then [s[0]] + Filtered(s[1..])
    else Filtered(s[1..])
  }

  function StripCr(line: string): string {
    if line != "" && line[|line| - 1] == '\r' then line[..|line| - 1] else line
  }

  function StripAll(lines: seq<string>): seq<string> {
    if lines == [] then [] else [StripCr(lines[0])] + StripAll(lines[1..])
  }

  /** The complete lines of a text, and what follows the last newline. */
  datatype Cut = Cut(lines: seq<string>, rest: string)

  function CutLines(s: string): Cut {
    var pieces := Split(s, '\n');
    Cut(StripAll(pieces[..|pieces| - 1]), pieces[|pieces| - 1])
  }

  /** The batch form: filter everything, split at every newline, strip one CR from each line. */
  function Batch(stream: string): Cut {
    CutLines(Filtered(stream))
  }

  // ----- What the server does, chunk by chunk -------------------------------------------------

  /** Text that arrives later only extends what was left over. */
  function Extend(before: Cut, s: string): Cut {
    var now := CutLines(before.rest + s);
    Cut(before.lines + now.lines, now.rest)
  }

  function Feed(before: Cut, chunk: string): Cut {
    Extend(before, Filtered(chunk))
  }

  function FeedAll(before: Cut, chunks: seq<string>): Cut
    decreases |chunks|
  {
    if chunks == [] then before else FeedAll(Feed(before, chunks[0]), chunks[1..])
  }

  function Flat(pieces: seq<string>): string {
    if pieces == [] then "" else pieces[0] + Flat(pieces[1..])
  }

  // ----- Facts about filtering and cutting ----------------------------------------------------

  lemma {:induction false} FilteredConcat(a: string, b: string)
    ensures Filtered(a + b) == Filtered(a) + Filtered(b)
  {
    if a == "" {
      assert a + b == b;
    } else {
      FilteredConcat(a[1..], b);
      var u, v := Filtered(a[1..]), Filtered(b);
      assert (a + b)[1..] == a[1..] + b && (a + b)[0] == a[0];
      assert [a[0]] + (u + v) == [a[0]] + u + v;
    }
  }

  lemma {:induction false} FilteredKept(s: string)
    ensures forall c | c in Filtered(s) :: Kept(c) && c in s
  {
    if s == "" {
    } else {
      FilteredKept(s[1..]);
    }
  }

  /** A line and what follows it. */
  lemma CutHead(line: string, rest: string)
    requires Free(line, '\n')
    ensures CutLines(line + ['\n'] + rest) == Cut([StripCr(line)] + CutLines(rest).lines, CutLines(rest).rest)
  {
    SplitHead(line, rest, '\n');
    var later := Split(rest, '\n');
    var pieces := [line] + later;
    assert pieces[..|pieces| - 1] == [line] + later[..|later| - 1];
    assert ([line] + later[..|later| - 1])[1..] == later[..|later| - 1];
  }

  lemma CutNone(s: string)
    requires Free(s, '\n')
    ensures CutLines(s) == Cut([], s)
  {
    SplitNone(s, '\n');
    assert [s][..0] == [];
  }

  /** Where the first line ends. */
  lemma {:induction false} FirstLine(s: string) returns (line: string, rest: string)
    requires !Free(s, '\n')
    ensures s == line + ['\n'] + rest && Free(line, '\n') && |rest| < |s|
  {
    if s[0] == '\n' {
      line, rest := "", s[1..];
    } else {
      assert s == [s[0]] + s[1..];
      line, rest := FirstLine(s[1..]);
      assert [s[0]] + (line + ['\n'] + rest) == [s[0]] + line + ['\n'] + rest;
      line := [s[0]] + line;
    }
  }

  lemma ExtendLater(line: string, later: Cut, s: string)
    ensures Extend(Cut([line] + later.lines, later.rest), s)
         == Cut([line] + Extend(later, s).lines, Extend(later, s).rest)
  {
  }

  /** Cutting in two goes. */
  lemma {:induction false} CutConcat(a: string, b: string)
    ensures CutLines(a + b) == Extend(CutLines(a), b)
    decreases |a|
  {
    if Free(a, '\n') {
      CutNone(a);
    } else {
      var line, rest := FirstLine(a);
      CutConcat(rest, b);
      CutHead(line, rest);
      CutHead(line, rest + b);
      assert line + ['\n'] + rest + b == line + ['\n'] + (rest + b);
      ExtendLater(StripCr(line), CutLines(rest), b);
    }
  }

  lemma {:induction false} StripAllFree(lines: seq<string>, c: char)
    requires AllFree(lines, c)
    ensures AllFree(StripAll(lines), c)
  {
    if lines == [] {
    } else {
      assert lines[0] in lines;
      StripAllFree(lines[1..], c);
    }
  }

  /** A character that is not in the text is in none of its lines, and no newline is in any. */
  lemma CutWithout(s: string, c: char)
    requires c == '\n' || Free(s, c)
    ensures AllFree(CutLines(s).lines, c) && Free(CutLines(s).rest, c)
  {
    if c == '\n' {
      GlueSplit(s, '\n');
    } else {
      SplitWithout(s, '\n', c);
    }
    var pieces := Split(s, '\n');
    assert forall p | p in pieces[..|pieces| - 1] :: p in pieces;
    StripAllFree(pieces[..|pieces| - 1], c);
    assert pieces[|pieces| - 1] in pieces;
  }

  /** No control character below 0x20 other than CR survives in a line. */
  lemma LinesArePrintable(stream: string, line: string, x: char)
    requires line in Batch(stream).lines && x in line
    ensures x >= ' ' || x == '\r'
  {
    FilteredKept(stream);
    if x == '\n' || !Kept(x) {
      CutWithout(Filtered(stream), x);
    }
  }

  // ----- What survives -------------------------------------------------------------------------

  /** How often `c` occurs in `s`. */
  function Times(s: string, c: char): nat {
    if s == "" then 0 else (if s[0] == c then 1 else 0) + Times(s[1..], c)
  }

  /** Of every character, CR, LF and those from the space on keep all their occurrences and the others none. */
  lemma {:induction false} FilteredTimes(s: string, c: char)
    ensures Times(Filtered(s), c) == if c as int >= 32 || c == '\r' || c == '\n' then Times(s, c) else 0
  {
    if s == "" {
    } else {
      FilteredTimes(s[1..], c);
      var later := Filtered(s[1..]);
      assert ([s[0]] + later)[1..] == later;
    }
  }

  /** Text without other characters passes unchanged, between any others. */
  lemma {:induction false} FilteredSame(s: string)
    requires forall i | 0 <= i < |s| :: s[i] as int >= 32 || s[i] == '\r' || s[i] == '\n'
    ensures Filtered(s) == s
  {
    if s == "" {
    } else {
      FilteredSame(s[1..]);
      assert s == [s[0]] + s[1..];
    }
  }

  /** Lines as a client sends them. */
  function Sent(lines: seq<string>): string {
    if lines == [] then "" else lines[0] + "\r\n" + Sent(lines[1..])
  }

  ghost predicate Printable(s: string) {
    forall i | 0 <= i < |s| :: s[i] as int >= 32
  }

  lemma SentLine(line: string, rest: string)
    requires Printable(line)
    ensures Filtered(line + "\r\n" + rest) == line + "\r\n" + Filtered(rest)
    ensures CutLines(line + "\r\n" + rest) == Cut([line] + CutLines(rest).lines, CutLines(rest).rest)
  {
    FilteredConcat(line + "\r\n", rest);
    FilteredSame(line + "\r\n");
    var full := line + "\r";
    assert line + "\r\n" + rest == full + ['\n'] + rest;
    CutHead(full, rest);
    assert full[..|full| - 1] == line;
  }

  /** Printable lines that are sent with CR LF are the lines that are processed, each as it was, and nothing is
      left. */
  lemma {:induction false} SentIsProcessed(lines: seq<string>)
    requires forall k | 0 <= k < |lines| :: Printable(lines[k])
    ensures Batch(Sent(lines)) == Cut(lines, "")
  {
    if lines == [] {
      CutNone("");
    } else {
      var rest := Sent(lines[1..]);
      SentIsProcessed(lines[1..]);
      SentLine(lines[0], rest);
      SentLine(lines[0], Filtered(rest));
      assert lines == [lines[0]] + lines[1..];
    }
  }

  /** A line may end with LF alone, and of several CR before it only the last is taken off. */
  lemma BareLine(line: string)
    requires Printable(line)
    ensures Batch(line + "\n") == Cut([line], "") && Batch(line + "\r\r\n") == Cut([line + "\r"], "")
  {
    FilteredSame(line + "\n");
    FilteredSame(line + "\r\r\n");
    assert line + "\n" == line + ['\n'] + "";
    assert line + "\r\r\n" == line + "\r\r" + ['\n'] + "";
    assert (line + "\r\r")[..|line| + 1] == line + "\r";
    CutHead(line, "");
    CutHead(line + "\r\r", "");
    CutNone("");
  }

  // ----- Chunking independence -----------------------------------------------------------------

  lemma FeedStep(stream: string, chunk: string)
    ensures Feed(Batch(stream), chunk) == Batch(stream + chunk)
  {
    FilteredConcat(stream, chunk);
    CutConcat(Filtered(stream), Filtered(chunk));
  }

  /** However a stream is divided into chunks, the lines and the leftover are those of the batch form. */
  lemma {:induction false} ChunksAgree(stream: string, chunks: seq<string>)
    ensures FeedAll(Batch(stream), chunks) == Batch(stream + Flat(chunks))
    decreases |chunks|
  {
    if chunks == [] {
      assert stream + "" == stream;
    } else {
      var first, later := chunks[0], Flat(chunks[1..]);
      FeedStep(stream, first);
      ChunksAgree(stream + first, chunks[1..]);
      assert stream + first + later == stream + (first + later);
    }
  }

  /** Two divisions of the same stream are indistinguishable, and no newline is ever left over. */
  lemma ChunkingIndependence(a: seq<string>, b: seq<string>)
    requires Flat(a) == Flat(b)
    ensures FeedAll(Cut([], ""), a) == FeedAll(Cut([], ""), b) == Batch(Flat(a))
    ensures Free(FeedAll(Cut([], ""), a).rest, '\n') && AllFree(FeedAll(Cut([], ""), a).lines, '\n')
  {
    CutNone("");
    assert Filtered("") == "";
    assert "" + Flat(a) == Flat(a) && "" + Flat(b) == Flat(b);
    ChunksAgree("", a);
    ChunksAgree("", b);
    CutWithout(Filtered(Flat(a)), '\n');
  }

  // ----- The code ------------------------------------------------------------------------------

  /** One turn of the erase loop, `done` before the iterator and `left` from it on. */
  lemma FilterTurn(done: string, left: string)
    requires left != ""
    ensures Kept(left[0]) ==> done + [left[0]] + Filtered(left[1..]) == done + Filtered(left)
    ensures !Kept(left[0]) ==> done + Filtered(left[1..]) == done + Filtered(left)
  {
    var c, later := left[0], Filtered(left[1..]);
    if Kept(c) {
      assert Filtered(left) == [c] + later;
      assert done + ([c] + later) == done + [c] + later;
    }
  }

  /** The erase loop of receiveData. */
  method DropControls(bytes: string) returns (chunk: string)
    ensures chunk == Filtered(bytes)
  {
    chunk := bytes;
    var it := 0;
    ghost var done, left := "", bytes;
    while it < |chunk|
      invariant it == |done| && chunk == done + left
      invariant done + Filtered(left) == Filtered(bytes)
      decreases |chunk| - it
    {
      var c := chunk[it];
      FilterTurn(done, left);
      if c < ' ' && c != '\r' && c != '\n' {
        chunk := chunk[..it] + chunk[it + 1..];
      } else {
        it := it + 1;
        done := done + [c];
      }
      left := left[1..];
    }
  }

  /** `pos` is where the first newline of `s` is, or negative when there is none. */
  predicate IsNewline(s: string, pos: int) {
    if pos < 0 then Free(s, '\n') else pos < |s| && s[pos] == '\n' && Free(s[..pos], '\n')
  }

  /** string::find of a newline. */
  method FindNewline(s: string) returns (pos: int)
    ensures IsNewline(s, pos)
  {
    for i := 0 to |s|
      invariant Free(s[..i], '\n')
    {
      if s[i] == '\n' {
        return i;
      }
      assert s[..i + 1] == s[..i] + [s[i]];
    }
    assert s[..|s|] == s;
    return -1;
  }

  /** One turn of the line loop of receiveData: the first line of the buffer, and the rest of it. */
  method TakeLine(buffer: string, pos: nat) returns (line: string, rest: string)
    requires IsNewline(buffer, pos)
    ensures CutLines(buffer) == Cut([line] + CutLines(rest).lines, CutLines(rest).rest)
    ensures Free(line, '\n') && |rest| < |buffer|
  {
    line := buffer[..pos];
    CutHead(line, buffer[pos + 1..]);
    assert buffer == line + ['\n'] + buffer[pos + 1..];
    if line != "" && line[|line| - 1] == '\r' {
      line := line[..|line| - 1];
    }
    rest := buffer[pos + 1..];
  }
}
