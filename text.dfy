/**
 * The string operations of Go's standard library that the bridge relies on:
 * strings.TrimSpace, strings.Split, strings.Join, strings.HasPrefix,
 * strings.Contains, the first field of strings.Fields, the line splitting of
 * bufio.ScanLines, fmt's %d and the byte length of a UTF-8 string.
 *
 * Strings are sequences of Unicode scalar values; Go strings are UTF-8 bytes.
 * Every separator used here is ASCII, so splitting on characters and
 * splitting on bytes agree.
 */
module Text {

  /** unicode.IsSpace, which strings.TrimSpace and strings.Fields both use. */
  predicate IsSpace(c: char) {
    || c == '\t' || c == '\n' || c == '\U{000B}' || c == '\U{000C}' || c == '\r' || c == ' '
    || c == '\U{0085}' || c == '\U{00A0}' || c == '\U{1680}'
    || ('\U{2000}' <= c <= '\U{200A}')
    || c == '\U{2028}' || c == '\U{2029}' || c == '\U{202F}' || c == '\U{205F}' || c == '\U{3000}'
  }

  predicate AllSpace(s: string) {
    forall k :: 0 <= k < |s| ==> IsSpace(s[k])
  }

  // ---------------------------------------------------------------------
  // strings.TrimSpace

  function TrimLeft(s: string): (r: string)
    ensures |r| <= |s| && r == s[|s| - |r|..]
    ensures r == [] || !IsSpace(r[0])
    ensures AllSpace(s[..|s| - |r|])
    decreases |s|
  {
    if |s| > 0 && IsSpace(s[0]) then
      var r := TrimLeft(s[1..]);
      assert s[1..][..|s| - 1 - |r|] == s[1..|s| - |r|];
      r
    else s
  }

  function TrimRight(s: string): (r: string)
    ensures r <= s
    ensures r == [] || !IsSpace(r[|r| - 1])
    ensures AllSpace(s[|r|..])
    decreases |s|
  {
    if |s| > 0 && IsSpace(s[|s| - 1]) then
      var r := TrimRight(s[..|s| - 1]);
      assert s[..|s| - 1][|r|..] + [s[|s| - 1]] == s[|r|..];
      r
    else s
  }

  /**
   * strings.TrimSpace: the longest slice of `s` that neither starts nor ends
   * with white space. The result is empty exactly when `s` is all white space.
   */
  function TrimSpace(s: string): (r: string)
    ensures r == [] || (!IsSpace(r[0]) && !IsSpace(r[|r| - 1]))
    ensures r == [] <==> AllSpace(s)
  {
    var left := TrimLeft(s);
    TrimSpaceEmpty(s, left);
    var r := TrimRight(left);
    assert r != [] ==> r[0] == left[0];
    r
  }

  lemma TrimSpaceEmpty(s: string, left: string)
    requires left == TrimLeft(s)
    ensures TrimRight(left) == [] <==> AllSpace(s)
  {
    var i := |s| - |left|;
    if TrimRight(left) == [] {
      assert s == s[..i] + left;
      assert left[0..] == left;
    }
  }

  // ---------------------------------------------------------------------
  // strings.Split and strings.Join

  /**
   * strings.Split(s, sep) for a one-character separator: the pieces of `s`
   * between occurrences of `sep`. There is always at least one piece.
   */
  function Split(s: string, sep: char): (r: seq<string>)
    ensures |r| >= 1
    ensures forall i :: 0 <= i < |r| ==> sep !in r[i]
    decreases |s|
  {
    if |s| == 0 then [""]
    else if s[0] == sep then [""] + Split(s[1..], sep)
    else
      var rest := Split(s[1..], sep);
      [[s[0]] + rest[0]] + rest[1..]
  }

  /** strings.Join: the pieces with `sep` between consecutive ones. */
  function Join(parts: seq<string>, sep: string): string
    decreases |parts|
  {
    if |parts| == 0 then ""
    else if |parts| == 1 then parts[0]
    else parts[0] + sep + Join(parts[1..], sep)
  }

  /** strings.Join(parts, ""). */
  function Concat(parts: seq<string>): string
    decreases |parts|
  {
    if |parts| == 0 then "" else Concat(parts[..|parts| - 1]) + parts[|parts| - 1]
  }

  /** Splitting and joining again with the same separator gives back the input. */
  lemma {:induction false} JoinSplit(s: string, sep: char)
    ensures Join(Split(s, sep), [sep]) == s
    decreases |s|
  {
    if |s| == 0 {
    } else if s[0] == sep {
      JoinSplit(s[1..], sep);
      assert [sep] + s[1..] == s;
    } else {
      JoinSplit(s[1..], sep);
      var rest := Split(s[1..], sep);
      if |rest| == 1 {
        assert [s[0]] + s[1..] == s;
      } else {
        assert rest == [rest[0]] + rest[1..];
        assert Join(rest, [sep]) == rest[0] + [sep] + Join(rest[1..], [sep]);
        assert [s[0]] + s[1..] == s;
      }
    }
  }

  /** Concatenation distributes over appending sequences of pieces. */
  lemma {:induction false} ConcatAppend(a: seq<string>, b: seq<string>)
    ensures Concat(a + b) == Concat(a) + Concat(b)
    decreases |b|
  {
    if |b| == 0 {
      assert a + b == a;
    } else {
      var init := b[..|b| - 1];
      ConcatAppend(a, init);
      assert (a + b)[..|a + b| - 1] == a + init;
      assert (a + b)[|a + b| - 1] == b[|b| - 1];
      assert Concat(a + b) == Concat(a + init) + b[|b| - 1];
      assert Concat(b) == Concat(init) + b[|b| - 1];
    }
  }

  // ---------------------------------------------------------------------
  // Prefixes, suffixes, substrings

  /** strings.HasPrefix. */
  predicate HasPrefix(s: string, prefix: string) {
    prefix <= s
  }

  predicate HasSuffix(s: string, suffix: string) {
    |suffix| <= |s| && s[|s| - |suffix|..] == suffix
  }

  /** strings.Contains. */
  predicate Contains(s: string, sub: string)
    decreases |s|
  {
    sub <= s || (|s| > 0 && Contains(s[1..], sub))
  }

  /** A string contains every string found inside it. */
  lemma {:induction false} ContainsInside(a: string, sub: string, b: string)
    ensures Contains(a + sub + b, sub)
    decreases |a|
  {
    if |a| == 0 {
      assert a + sub + b == sub + b;
    } else {
      ContainsInside(a[1..], sub, b);
      assert (a + sub + b)[1..] == a[1..] + sub + b;
    }
  }

  // ---------------------------------------------------------------------
  // strings.Fields(line)[0]

  /** The longest prefix of `s` without white space. */
  function TakeWord(s: string): (r: string)
    ensures r <= s
    ensures forall k :: 0 <= k < |r| ==> !IsSpace(r[k])
    ensures |r| == |s| || IsSpace(s[|r|])
    decreases |s|
  {
    if |s| == 0 || IsSpace(s[0]) then "" else [s[0]] + TakeWord(s[1..])
  }

  /** The first element of strings.Fields(s), if `s` has one. */
  function FirstField(s: string): (r: string)
    ensures r == "" <==> AllSpace(s)
    ensures forall k :: 0 <= k < |r| ==> !IsSpace(r[k])
  {
    var rest := TrimLeft(s);
    if rest == [] then
      assert s[..|s|] == s;
      ""
    else
      assert s == s[..|s| - |rest|] + rest;
      assert !AllSpace(s) by { assert s[|s| - |rest|] == rest[0]; }
      TakeWord(rest)
  }

  // ---------------------------------------------------------------------
  // bufio.ScanLines

  /** Removes one trailing carriage return. */
  function DropCR(line: string): string {
    if |line| > 0 && line[|line| - 1] == '\r' then line[..|line| - 1] else line
  }

  /**
   * The tokens a bufio.Scanner with the default ScanLines split function
   * yields for the whole input `s` (no token exceeding the buffer): the
   * newline-terminated lines, each without a trailing "\r", then the final
   * unterminated piece when it is not empty.
   */
  function ScanLines(s: string): (lines: seq<string>)
    ensures forall i :: 0 <= i < |lines| ==> '\n' !in lines[i]
  {
    var parts := Split(s, '\n');
    var complete := if parts[|parts| - 1] == "" then parts[..|parts| - 1] else parts;
    seq(|complete|, i requires 0 <= i < |complete| => DropCR(complete[i]))
  }

  // ---------------------------------------------------------------------
  // fmt's %d

  function DigitChar(d: nat): (c: char)
    requires d < 10
    ensures '0' <= c <= '9'
  {
    "0123456789"[d]
  }

  function DigitValue(c: char): nat {
    if '0' <= c <= '9' then (c as int - '0' as int) as nat else 0
  }

  predicate IsDigits(s: string) {
    forall k :: 0 <= k < |s| ==> '0' <= s[k] <= '9'
  }

  /** The decimal digits of `n`, most significant first, no leading zero. */
  function NatToDecimal(n: nat): (r: string)
    ensures |r| >= 1 && IsDigits(r)
    ensures |r| > 1 ==> r[0] != '0'
    decreases n
  {
    if n < 10 then [DigitChar(n)] else NatToDecimal(n / 10) + [DigitChar(n % 10)]
  }

  /** fmt.Sprintf("%d", n). */
  function IntToDecimal(n: int): string {
    if n < 0 then "-" + NatToDecimal(-n) else NatToDecimal(n)
  }

  /** The number a string of decimal digits denotes. */
  function DecimalValue(s: string): nat
    decreases |s|
  {
    if |s| == 0 then 0 else DecimalValue(s[..|s| - 1]) * 10 + DigitValue(s[|s| - 1])
  }

  /** Reads back what IntToDecimal writes. */
  function ParseDecimal(s: string): int {
    if |s| > 0 && s[0] == '-' then -(DecimalValue(s[1..]) as int) else DecimalValue(s)
  }

  lemma {:induction false} NatToDecimalRoundTrip(n: nat)
    ensures DecimalValue(NatToDecimal(n)) == n
    decreases n
  {
    if n >= 10 {
      NatToDecimalRoundTrip(n / 10);
      var r := NatToDecimal(n);
      assert r[..|r| - 1] == NatToDecimal(n / 10);
      assert DigitValue(DigitChar(n % 10)) == n % 10 by {
        assert "0123456789"[n % 10] as int - '0' as int == n % 10;
      }
    } else {
      assert DigitValue(DigitChar(n)) == n by {
        assert "0123456789"[n] as int - '0' as int == n;
      }
    }
  }

  /** The exit-code marker names the exit code unambiguously. */
  lemma IntToDecimalRoundTrip(n: int)
    ensures ParseDecimal(IntToDecimal(n)) == n
  {
    if n < 0 {
      var digits := NatToDecimal(-n);
      NatToDecimalRoundTrip(-n);
      var s := "-" + digits;
      assert s[0] == '-' && s[1..] == digits;
      assert ParseDecimal(s) == -(DecimalValue(digits) as int);
    } else {
      var digits := NatToDecimal(n);
      NatToDecimalRoundTrip(n);
      assert '0' <= digits[0] <= '9';
      assert ParseDecimal(digits) == DecimalValue(digits);
    }
  }

  // ---------------------------------------------------------------------
  // len() of a Go string: its UTF-8 byte count

  function Utf8Width(c: char): (w: nat)
    ensures 1 <= w <= 4
  {
    if c as int < 0x80 then 1
    else if c as int < 0x800 then 2
    else if c as int < 0x10000 then 3
    else 4
  }

  /** The number of bytes in the UTF-8 encoding of `s`. */
  function Utf8Len(s: string): nat
    decreases |s|
  {
    if |s| == 0 then 0 else Utf8Len(s[..|s| - 1]) + Utf8Width(s[|s| - 1])
  }

  /** Byte length adds up over concatenation, and is at least the character count. */
  lemma {:induction false} Utf8LenAppend(a: string, b: string)
    ensures Utf8Len(a + b) == Utf8Len(a) + Utf8Len(b)
    ensures Utf8Len(b) >= |b|
    decreases |b|
  {
    if |b| > 0 {
      Utf8LenAppend(a, b[..|b| - 1]);
      assert (a + b)[..|a + b| - 1] == a + b[..|b| - 1];
    } else {
      assert a + b == a;
    }
  }

  // ---------------------------------------------------------------------
  // Collecting pieces line by line

  /** The pieces `f` yields for each line, in line order. */
  function FlatMap<T>(f: string -> seq<T>, lines: seq<string>): seq<T>
    decreases |lines|
  {
    if |lines| == 0 then [] else FlatMap(f, lines[..|lines| - 1]) + f(lines[|lines| - 1])
  }

  /** Collecting over two runs of lines is collecting over each, in order. */
  lemma {:induction false} FlatMapAppend<T>(f: string -> seq<T>, a: seq<string>, b: seq<string>)
    ensures FlatMap(f, a + b) == FlatMap(f, a) + FlatMap(f, b)
    decreases |b|
  {
    if |b| == 0 {
      assert a + b == a;
    } else {
      FlatMapAppend(f, a, b[..|b| - 1]);
      assert (a + b)[..|a + b| - 1] == a + b[..|b| - 1];
    }
  }

  /** A line for which `f` yields nothing can be dropped. */
  lemma FlatMapSkip<T>(f: string -> seq<T>, before: seq<string>, line: string, after: seq<string>)
    requires f(line) == []
    ensures FlatMap(f, before + [line] + after) == FlatMap(f, before + after)
  {
    FlatMapAppend(f, before + [line], after);
    FlatMapAppend(f, before, after);
    assert FlatMap(f, before + [line]) == FlatMap(f, before) by {
      assert (before + [line])[..|before|] == before;
    }
  }

  lemma FlatMapThree<T>(f: string -> seq<T>, l1: string, l2: string, l3: string)
    ensures FlatMap(f, [l1, l2, l3]) == f(l1) + f(l2) + f(l3)
  {
    assert [l1, l2, l3][..2] == [l1, l2];
    assert [l1, l2][..1] == [l1];
    assert [l1][..0] == [];
    assert FlatMap(f, [l1]) == f(l1);
    assert FlatMap(f, [l1, l2]) == f(l1) + f(l2);
    assert FlatMap(f, [l1, l2, l3]) == FlatMap(f, [l1, l2]) + f(l3);
  }
}
