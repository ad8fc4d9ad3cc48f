/** Iteration over Go maps, whose order is unspecified. */
module GoMaps {

  /** `keys` lists every element of `s` once: one possible iteration order. */
  ghost predicate Enumerates(keys: seq<string>, s: set<string>) {
    && (forall k :: k in keys <==> k in s)
    && (forall i, j | 0 <= i < j < |keys| :: keys[i] != keys[j])
  }

  lemma EnumeratesMore(keys: seq<string>, s: set<string>, k: string)
    requires Enumerates(keys, s) && k !in s
    ensures Enumerates(keys + [k], s + {k})
  {
  }

  lemma {:induction false} EnumeratesLength(keys: seq<string>, s: set<string>)
    requires Enumerates(keys, s)
    ensures |keys| == |s|
  {
    if keys == [] {
      assert s == {};
    } else {
      var front, k := keys[..|keys| - 1], keys[|keys| - 1];
      assert keys == front + [k] && k in s;
      EnumeratesLength(front, s - {k});
    }
  }
}

/**
  The string functions of the Go library that the parsers use, on strings of bytes written as
  characters, with the ASCII meaning of white space and case.
 */
module GoText {

  type Cutset = set<char>

  const CRLF: Cutset := {'\r', '\n'}
  const SPACES: Cutset := {' ', '\t', '\n', '\r', '\U{0B}', '\U{0C}'}

  // ---------------------------------------------------------------------------
  // strings.Trim, strings.TrimSpace
  // ---------------------------------------------------------------------------

  function TrimLeft(s: string, cut: Cutset): string {
    if s != "" && s[0] in cut then TrimLeft(s[1..], cut) else s
  }

  function TrimRight(s: string, cut: Cutset): string {
    if s != "" && s[|s| - 1] in cut then TrimRight(s[..|s| - 1], cut) else s
  }

  function Trim(s: string, cut: Cutset): string {
    TrimRight(TrimLeft(s, cut), cut)
  }

  function TrimSpace(s: string): string {
    Trim(s, SPACES)
  }

  /** Nothing to trim at either end. */
  predicate Trimmed(s: string, cut: Cutset) {
    s == "" || (s[0] !in cut && s[|s| - 1] !in cut)
  }

  lemma TrimOfTrimmed(s: string, cut: Cutset)
    requires Trimmed(s, cut)
    ensures Trim(s, cut) == s
  {
  }

  lemma {:induction false} TrimRightOf(s: string, pad: string, cut: Cutset)
    requires s == "" || s[|s| - 1] !in cut
    requires forall i | 0 <= i < |pad| :: pad[i] in cut
    ensures TrimRight(s + pad, cut) == s
  {
    if pad == "" {
      assert s + pad == s;
    } else {
      assert (s + pad)[..|s + pad| - 1] == s + pad[..|pad| - 1];
      TrimRightOf(s, pad[..|pad| - 1], cut);
    }
  }

  lemma {:induction false} TrimLeftOf(pad: string, s: string, cut: Cutset)
    requires s == "" || s[0] !in cut
    requires forall i | 0 <= i < |pad| :: pad[i] in cut
    ensures TrimLeft(pad + s, cut) == s
  {
    if pad == "" {
      assert pad + s == s;
    } else {
      assert (pad + s)[1..] == pad[1..] + s;
      TrimLeftOf(pad[1..], s, cut);
    }
  }

  lemma {:induction false} TrimLeftShape(s: string, cut: Cutset)
    ensures var t := TrimLeft(s, cut);
            && |t| <= |s| && t == s[|s| - |t|..]
            && (t == "" || t[0] !in cut)
  {
    if s != "" && s[0] in cut {
      TrimLeftShape(s[1..], cut);
    }
  }

  lemma {:induction false} TrimRightShape(s: string, cut: Cutset)
    ensures var t := TrimRight(s, cut);
            && |t| <= |s| && t == s[..|t|]
            && (t == "" || t[|t| - 1] !in cut)
  {
    if s != "" && s[|s| - 1] in cut {
      TrimRightShape(s[..|s| - 1], cut);
    }
  }

  lemma {:induction false} TrimRightRest(s: string, cut: Cutset)
    ensures forall i | |TrimRight(s, cut)| <= i < |s| :: s[i] in cut
  {
    if s != "" && s[|s| - 1] in cut {
      TrimRightRest(s[..|s| - 1], cut);
    }
  }

  lemma {:induction false} TrimRightPad(s: string, pad: string, cut: Cutset)
    requires forall i | 0 <= i < |pad| :: pad[i] in cut
    ensures TrimRight(s + pad, cut) == TrimRight(s, cut)
  {
    if pad == "" {
      assert s + pad == s;
    } else {
      assert (s + pad)[..|s + pad| - 1] == s + pad[..|pad| - 1];
      TrimRightPad(s, pad[..|pad| - 1], cut);
    }
  }

  lemma {:induction false} TrimRightAfter(p: string, s: string, cut: Cutset)
    requires p != "" && p[|p| - 1] !in cut
    ensures TrimRight(p + s, cut) == p + TrimRight(s, cut)
  {
    if s == "" {
      assert p + s == p;
    } else if s[|s| - 1] in cut {
      assert (p + s)[..|p + s| - 1] == p + s[..|s| - 1];
      TrimRightAfter(p, s[..|s| - 1], cut);
    }
  }

  lemma {:induction false} TrimLeftPad(pad: string, s: string, cut: Cutset)
    requires forall i | 0 <= i < |pad| :: pad[i] in cut
    ensures TrimLeft(pad + s, cut) == TrimLeft(s, cut)
  {
    if pad == "" {
      assert pad + s == s;
    } else {
      assert (pad + s)[1..] == pad[1..] + s;
      TrimLeftPad(pad[1..], s, cut);
    }
  }

  lemma {:induction false} TrimLeftBefore(s: string, pad: string, cut: Cutset)
    requires TrimLeft(s, cut) != ""
    ensures TrimLeft(s + pad, cut) == TrimLeft(s, cut) + pad
  {
    if s[0] in cut {
      assert (s + pad)[1..] == s[1..] + pad;
      TrimLeftBefore(s[1..], pad, cut);
    }
  }

  /** Characters of the cutset after or before a string do not matter. */
  lemma TrimPad(before: string, s: string, after: string, cut: Cutset)
    requires forall i | 0 <= i < |before| :: before[i] in cut
    requires forall i | 0 <= i < |after| :: after[i] in cut
    ensures Trim(before + (s + after), cut) == Trim(s, cut)
  {
    TrimLeftPad(before, s + after, cut);
    if TrimLeft(s, cut) == "" {
      TrimLeftEmpty(s, cut);
      TrimLeftPad(s, after, cut);
      TrimLeftOf(after, "", cut);
      assert after + "" == after;
    } else {
      TrimLeftBefore(s, after, cut);
      TrimRightPad(TrimLeft(s, cut), after, cut);
    }
  }

  lemma {:induction false} TrimLeftEmpty(s: string, cut: Cutset)
    requires TrimLeft(s, cut) == ""
    ensures forall i | 0 <= i < |s| :: s[i] in cut
  {
    if s != "" {
      TrimLeftEmpty(s[1..], cut);
      assert forall i | 1 <= i < |s| :: s[i] == s[1..][i - 1];
    }
  }

  /** Trimming leaves a trimmed piece of the string. */
  lemma TrimShape(s: string, cut: Cutset)
    ensures Trimmed(Trim(s, cut), cut)
    ensures forall c :: c in Trim(s, cut) ==> c in s
  {
    TrimLeftShape(s, cut);
    TrimRightShape(TrimLeft(s, cut), cut);
  }

  // ---------------------------------------------------------------------------
  // strings.Split and the first half of strings.SplitN(s, sep, 2)
  // ---------------------------------------------------------------------------

  /** The position of the first `c`, or the length of the string. */
  function IndexOf(s: string, c: char): (i: nat)
    ensures i <= |s| && c !in s[..i]
    ensures i < |s| ==> s[i] == c
    ensures i < |s| <==> c in s
  {
    if s == "" || s[0] == c then 0 else 1 + IndexOf(s[1..], c)
  }

  lemma IndexOfHead(head: string, c: char, tail: string)
    requires c !in head
    ensures IndexOf(head + [c] + tail, c) == |head|
  {
    var s := head + [c] + tail;
    assert s[|head|] == c;
    assert s[..|head|] == head;
  }

  function Split(s: string, sep: char): (parts: seq<string>)
    ensures |parts| >= 1
    decreases |s|
  {
    var i := IndexOf(s, sep);
    if i == |s| then [s] else [s[..i]] + Split(s[i + 1..], sep)
  }

  lemma SplitHead(head: string, sep: char, tail: string)
    requires sep !in head
    ensures Split(head + [sep] + tail, sep) == [head] + Split(tail, sep)
  {
    IndexOfHead(head, sep, tail);
    var s := head + [sep] + tail;
    assert s[..|head|] == head && s[|head| + 1..] == tail;
  }

  lemma SplitWhole(s: string, sep: char)
    requires sep !in s
    ensures Split(s, sep) == [s]
  {
  }

  lemma PieceChars(s: string, a: nat, b: nat)
    requires a <= b <= |s|
    ensures forall c :: c in s[a..b] ==> c in s
  {
  }

  /** The parts contain no separator and nothing that was not in the string. */
  lemma {:induction false} SplitShape(s: string, sep: char, j: nat)
    requires j < |Split(s, sep)|
    ensures sep !in Split(s, sep)[j]
    ensures forall c :: c in Split(s, sep)[j] ==> c in s
    decreases |s|
  {
    var i := IndexOf(s, sep);
    if i < |s| && j > 0 {
      var tail := s[i + 1..];
      SplitShape(tail, sep, j - 1);
      assert Split(s, sep)[j] == Split(tail, sep)[j - 1];
      PieceChars(s, i + 1, |s|);
    } else {
      assert Split(s, sep)[j] == s[..i];
      PieceChars(s, 0, i);
    }
  }

  // ---------------------------------------------------------------------------
  // Lines
  // ---------------------------------------------------------------------------

  datatype Line = Line(text: string, rest: string) | EndOfInput

  /** bufio.Reader.ReadString('\n'): the line with its newline, or the end of the input. */
  function ReadLine(s: string): (r: Line)
    ensures r.Line? ==> |r.rest| < |s| && r.text + r.rest == s
  {
    var i := IndexOf(s, '\n');
    if i == |s| then EndOfInput else
      assert s == s[..i + 1] + s[i + 1..];
      Line(s[..i + 1], s[i + 1..])
  }

  lemma ReadLineHead(text: string, rest: string)
    requires '\n' !in text
    ensures ReadLine(text + "\n" + rest) == Line(text + "\n", rest)
  {
    IndexOfHead(text, '\n', rest);
    var s := text + ['\n'] + rest;
    assert s == text + "\n" + rest;
    assert s[..|text| + 1] == text + "\n" && s[|text| + 1..] == rest;
  }

  /** A line read and trimmed of its line ending has no newline left. */
  lemma TrimmedLine(s: string)
    requires ReadLine(s).Line?
    ensures var field := Trim(ReadLine(s).text, CRLF); Trimmed(field, CRLF) && '\n' !in field
  {
    var text := ReadLine(s).text;
    TrimShape(text, CRLF);
    assert text[|text| - 1] == '\n';
    assert '\n' !in text[..|text| - 1];
    TrimDropsLast(text, CRLF);
    var field := Trim(text, CRLF);
    assert forall c | c in field :: c in text[..|text| - 1];
  }

  /** A last character from the cutset goes. */
  lemma TrimDropsLast(s: string, cut: Cutset)
    requires s != "" && s[|s| - 1] in cut
    ensures forall c :: c in Trim(s, cut) ==> c in s[..|s| - 1]
  {
    TrimLeftShape(s, cut);
    var left := TrimLeft(s, cut);
    TrimRightShape(left, cut);
    if left != "" {
      TrimRightShape(left[..|left| - 1], cut);
      assert TrimRight(left, cut) == TrimRight(left[..|left| - 1], cut);
      assert left[..|left| - 1] == s[|s| - |left|..|s| - 1];
    }
  }

  /** A trimmed text written as a line with CRLF comes back as it was. */
  lemma LineRoundTrip(text: string, rest: string)
    requires '\n' !in text && Trimmed(text, CRLF)
    ensures ReadLine(text + "\r\n" + rest).Line?
    ensures Trim(ReadLine(text + "\r\n" + rest).text, CRLF) == text
    ensures ReadLine(text + "\r\n" + rest).rest == rest
  {
    assert text + "\r\n" + rest == (text + "\r") + "\n" + rest;
    ReadLineHead(text + "\r", rest);
    assert (text + "\r") + "\n" == text + "\r\n";
    TrimCrlf(text);
  }

  lemma TrimCrlf(text: string)
    requires Trimmed(text, CRLF)
    ensures Trim(text + "\r\n", CRLF) == text
  {
    if text == "" {
      assert text + "\r\n" == "\r\n" + "";
      TrimLeftOf("\r\n", "", CRLF);
    } else {
      TrimLeftOf("", text + "\r\n", CRLF);
      assert "" + (text + "\r\n") == text + "\r\n";
      TrimRightOf(text, "\r\n", CRLF);
    }
  }

  // ---------------------------------------------------------------------------
  // Decimal numbers
  // ---------------------------------------------------------------------------

  predicate IsDigit(c: char) {
    '0' <= c <= '9'
  }

  function Digit(d: nat): (c: char)
    requires d < 10
    ensures IsDigit(c) && c as int - '0' as int == d
  {
    ('0' as int + d) as char
  }

  /** The digits of a number, most significant first. */
  function Digits(n: nat): (s: string)
    ensures |s| >= 1 && AllDigits(s)
  {
    if n < 10 then [Digit(n)] else Digits(n / 10) + [Digit(n % 10)]
  }

  /** strconv.Itoa, and "%d". */
  function Itoa(n: int): string {
    if n < 0 then "-" + Digits(-n) else Digits(n)
  }

  predicate AllDigits(s: string) {
    forall i | 0 <= i < |s| :: IsDigit(s[i])
  }

  function Value(s: string): int {
    if s == "" then 0 else 10 * Value(s[..|s| - 1]) + (s[|s| - 1] as int - '0' as int)
  }

  const MAX_INT := 0x7FFF_FFFF_FFFF_FFFF
  const MIN_INT := -0x8000_0000_0000_0000

  /**
    The value strconv.Atoi returns and whether it reports no error: 0 for bad syntax, the nearest
    bound when out of range.
   */
  datatype Number = Number(value: int, ok: bool)

  function Atoi(s: string): Number {
    if s != "" && s[0] == '-' then Clamped(s[1..], -1)
    else if s != "" && s[0] == '+' then Clamped(s[1..], 1)
    else Clamped(s, 1)
  }

  function Clamped(digits: string, sign: int): Number {
    if digits == "" || !AllDigits(digits) then Number(0, false)
    else
      var v := sign * Value(digits);
      if v > MAX_INT then Number(MAX_INT, false)
      else if v < MIN_INT then Number(MIN_INT, false)
      else Number(v, true)
  }

  lemma {:induction false} ValueOfDigits(n: nat)
    ensures Value(Digits(n)) == n
  {
    if n < 10 {
      assert Digits(n)[..0] == "";
    } else {
      ValueOfDigits(n / 10);
      assert Digits(n)[..|Digits(n)| - 1] == Digits(n / 10);
    }
  }

  /** Printing and parsing a machine integer gives it back. */
  lemma AtoiOfItoa(n: int)
    requires MIN_INT <= n <= MAX_INT
    ensures Atoi(Itoa(n)) == Number(n, true)
  {
    if n < 0 {
      ValueOfDigits(-n);
      assert Itoa(n)[1..] == Digits(-n);
    } else {
      ValueOfDigits(n);
      assert IsDigit(Itoa(n)[0]);
    }
  }

  /** A printed number consists of digits and possibly a sign. */
  lemma ItoaShape(n: int)
    ensures Itoa(n) != ""
    ensures forall c :: c in Itoa(n) ==> IsDigit(c) || c == '-'
    ensures n >= 0 ==> forall c :: c in Itoa(n) ==> IsDigit(c)
  {
  }
}
