// Strings as the C++ code cuts and glues them: splitting on one character, gluing
// pieces back together, and the character classes of the "C" locale.
module Text {

  // ----- Splitting on a separator ------------------------------------------------

  /** Every piece between two separators, empty pieces included. */
  function Split(s: string, sep: char): (r: seq<string>)
    ensures |r| > 0
  {
    if s == "" then [""]
    else
      var rest := Split(s[1..], sep);
      if s[0] == sep then [""] + rest else [[s[0]] + rest[0]] + rest[1..]
  }

  function Glue(pieces: seq<string>, sep: char): string
    requires |pieces| > 0
  {
    if |pieces| == 1 then pieces[0] else pieces[0] + [sep] + Glue(pieces[1..], sep)
  }

  predicate Free(s: string, c: char) {
    c !in s
  }

  predicate AllFree(pieces: seq<string>, c: char) {
    forall p | p in pieces :: Free(p, c)
  }

  lemma {:induction false} SplitNone(s: string, sep: char)
    requires Free(s, sep)
    ensures Split(s, sep) == [s]
  {
    if s == "" {
    } else {
      SplitNone(s[1..], sep);
      assert [s[0]] + s[1..] == s;
    }
  }

  lemma {:induction false} SplitHead(a: string, b: string, sep: char)
    requires Free(a, sep)
    ensures Split(a + [sep] + b, sep) == [a] + Split(b, sep)
  {
    var s := a + [sep] + b;
    if a == "" {
      assert s[1..] == b;
    } else {
      SplitHead(a[1..], b, sep);
      assert s[1..] == a[1..] + [sep] + b;
      assert [a[0]] + a[1..] == a;
    }
  }

  /** Splitting undoes gluing, on pieces that do not contain the separator. */
  lemma {:induction false} SplitGlue(pieces: seq<string>, sep: char)
    requires |pieces| > 0 && AllFree(pieces, sep)
    ensures Split(Glue(pieces, sep), sep) == pieces
  {
    if |pieces| == 1 {
      SplitNone(pieces[0], sep);
    } else {
      SplitGlue(pieces[1..], sep);
      SplitHead(pieces[0], Glue(pieces[1..], sep), sep);
      assert pieces == [pieces[0]] + pieces[1..];
    }
  }

  lemma GluePrepend(c: char, pieces: seq<string>, sep: char)
    requires |pieces| > 0
    ensures Glue([[c] + pieces[0]] + pieces[1..], sep) == [c] + Glue(pieces, sep)
  {
    var r := [[c] + pieces[0]] + pieces[1..];
    if |pieces| > 1 {
      assert r[1..] == pieces[1..];
    }
  }

  /** Gluing undoes splitting, on every string; no piece contains the separator. */
  lemma {:induction false} GlueSplit(s: string, sep: char)
    ensures AllFree(Split(s, sep), sep)
    ensures Glue(Split(s, sep), sep) == s
  {
    if s == "" {
    } else {
      GlueSplit(s[1..], sep);
      var rest := Split(s[1..], sep);
      assert [s[0]] + s[1..] == s;
      if s[0] == sep {
        assert Split(s, sep)[1..] == rest;
      } else {
        assert rest[0] in rest;
        GluePrepend(s[0], rest, sep);
      }
    }
  }

  lemma {:induction false} SplitWithout(s: string, sep: char, c: char)
    requires Free(s, c)
    ensures AllFree(Split(s, sep), c)
  {
    if s == "" {
    } else {
      SplitWithout(s[1..], sep, c);
      assert Split(s[1..], sep)[0] in Split(s[1..], sep);
    }
  }

  // ----- Character classes ---------------------------------------------------------

  predicate IsAlpha(c: char) { 'a' <= c <= 'z' || 'A' <= c <= 'Z' }

  predicate IsDigit(c: char) { '0' <= c <= '9' }

  predicate IsSpace(c: char) { c == ' ' || '\t' <= c <= '\r' }

  predicate IsCntrl(c: char) { c < ' ' || c == 127 as char }

  function Upper1(c: char): char {
    if 'a' <= c <= 'z' then (c as int - 32) as char else c
  }

  function Upper(s: string): (r: string)
    ensures |r| == |s| && forall i | 0 <= i < |s| :: r[i] == Upper1(s[i])
  {
    seq(|s|, i requires 0 <= i < |s| => Upper1(s[i]))
  }

  /** The value std::atoi gives for a string whose number fits an int. */
  function Atoi(s: string): int {
    if s == "" then 0
    else if IsSpace(s[0]) then Atoi(s[1..])
    else if s[0] == '-' then -Digits(s[1..], 0)
    else if s[0] == '+' then Digits(s[1..], 0)
    else Digits(s, 0)
  }

  function Digits(s: string, acc: int): int {
    if s == "" || !IsDigit(s[0]) then acc
    else Digits(s[1..], 10 * acc + (s[0] as int - '0' as int))
  }

  // ----- The character classes and numbers, by their members ----------------------------------------

  const LOWER: set<char> := {
    'a', 'b', 'c', 'd', 'e', 'f', 'g', 'h', 'i', 'j', 'k', 'l', 'm',
    'n', 'o', 'p', 'q', 'r', 's', 't', 'u', 'v', 'w', 'x', 'y', 'z'
  }

  const UPPER: set<char> := {
    'A', 'B', 'C', 'D', 'E', 'F', 'G', 'H', 'I', 'J', 'K', 'L', 'M',
    'N', 'O', 'P', 'Q', 'R', 'S', 'T', 'U', 'V', 'W', 'X', 'Y', 'Z'
  }

  const FIGURES: set<char> := {'0', '1', '2', '3', '4', '5', '6', '7', '8', '9'}

  /** Every lower-case letter is raised, and nothing else is. */
  lemma UpperExact(c: char)
    ensures Upper1('a') == 'A' && Upper1('b') == 'B' && Upper1('c') == 'C' && Upper1('d') == 'D'
    ensures Upper1('e') == 'E' && Upper1('f') == 'F' && Upper1('g') == 'G' && Upper1('h') == 'H'
    ensures Upper1('i') == 'I' && Upper1('j') == 'J' && Upper1('k') == 'K' && Upper1('l') == 'L'
    ensures Upper1('m') == 'M' && Upper1('n') == 'N' && Upper1('o') == 'O' && Upper1('p') == 'P'
    ensures Upper1('q') == 'Q' && Upper1('r') == 'R' && Upper1('s') == 'S' && Upper1('t') == 'T'
    ensures Upper1('u') == 'U' && Upper1('v') == 'V' && Upper1('w') == 'W' && Upper1('x') == 'X'
    ensures Upper1('y') == 'Y' && Upper1('z') == 'Z'
    ensures c !in LOWER ==> Upper1(c) == c
  {
  }

  lemma ClassesExact(c: char)
    ensures IsAlpha(c) <==> c in LOWER || c in UPPER
    ensures IsDigit(c) <==> c in FIGURES
  {
  }

  predicate AllDigits(s: string) {
    forall i | 0 <= i < |s| :: '0' <= s[i] <= '9'
  }

  /** The decimal value of a string of digits, from its last digit. */
  function Decimal(s: string): int
    requires AllDigits(s)
  {
    if s == "" then 0 else 10 * Decimal(s[..|s| - 1]) + (s[|s| - 1] as int - '0' as int)
  }

  /** Reading digits goes on where it stopped. */
  lemma {:induction false} DigitsConcat(digits: string, rest: string, acc: int)
    requires AllDigits(digits)
    ensures Digits(digits + rest, acc) == Digits(rest, Digits(digits, acc))
    decreases |digits|
  {
    if digits == "" {
      assert digits + rest == rest;
    } else {
      assert (digits + rest)[1..] == digits[1..] + rest;
      DigitsConcat(digits[1..], rest, 10 * acc + (digits[0] as int - '0' as int));
    }
  }

  lemma {:induction false} DigitsDecimal(digits: string)
    requires AllDigits(digits)
    ensures Digits(digits, 0) == Decimal(digits)
  {
    if digits == "" {
    } else {
      var head, last := digits[..|digits| - 1], [digits[|digits| - 1]];
      assert digits == head + last;
      DigitsDecimal(head);
      DigitsConcat(head, last, 0);
      assert last[1..] == "";
    }
  }

  /** White space as the "C" locale has it. */
  predicate Blank(s: string) {
    forall i | 0 <= i < |s| :: s[i] == ' ' || 9 <= s[i] as int <= 13
  }

  lemma {:induction false} AtoiSkips(blank: string, s: string)
    requires Blank(blank)
    ensures Atoi(blank + s) == Atoi(s)
  {
    if blank == "" {
      assert blank + s == s;
    } else {
      AtoiSkips(blank[1..], s);
      assert (blank + s)[1..] == blank[1..] + s;
    }
  }

  /** A number is read after white space and at most one sign, up to the first character that is no digit, and its
      value is the decimal one; where there is none, it is 0. */
  lemma AtoiDecimal(blank: string, sign: string, digits: string, rest: string)
    requires Blank(blank) && sign in {"", "+", "-"} && AllDigits(digits)
    requires rest == "" || !('0' <= rest[0] <= '9')
    requires sign == "" && digits == "" && rest != "" ==> rest[0] != '+' && rest[0] != '-' && !Blank([rest[0]])
    ensures Atoi(blank + sign + digits + rest) == if sign == "-" then -Decimal(digits) else Decimal(digits)
  {
    var s := sign + (digits + rest);
    assert blank + sign + digits + rest == blank + s;
    AtoiSkips(blank, s);
    DigitsDecimal(digits);
    DigitsConcat(digits, rest, 0);
    if sign == "" {
      assert s == digits + rest;
      if digits == "" && rest != "" {
        assert !Blank([rest[0]]);
        assert s[0] == rest[0];
      } else if digits != "" {
        assert s[0] == digits[0];
      }
    } else {
      assert s[0] == sign[0] && s[1..] == digits + rest;
    }
  }
}
