/**
 * The pieces of Python's string toolkit that the budget report and the spend
 * chart use, each limited to the way the program calls it: repetition,
 * slicing to a prefix, `ljust`, `rjust`, `center(3)` of one character,
 * `str()` of a natural number, `'\n'.join`, `rstrip('\n')`, and fixed-point
 * formatting of an amount of cents with two decimals.  Beside each, the
 * inverse or reference definition it is checked against.
 */
module Text {

  datatype Option<T> = None | Some(value: T)

  function Max(a: int, b: int): int { if a < b then b else a }

  /** `[c] * n` (Python's `c * n` with n >= 0). */
  function Repeat(c: char, n: nat): (r: string)
    ensures |r| == n
    ensures forall i :: 0 <= i < n ==> r[i] == c
  {
    if n == 0 then [] else Repeat(c, n - 1) + [c]
  }

  /** `s[:n]`: the first n characters, or all of s when it is shorter. */
  function Take(s: string, n: nat): (r: string)
    ensures |r| == if |s| <= n then |s| else n
    ensures r == s[..|r|]
  {
    if |s| <= n then s else s[..n]
  }

  /** `s.ljust(width)`: pads with spaces on the right, never truncates. */
  function LJust(s: string, width: nat): (r: string)
    ensures |r| == Max(|s|, width)
  {
    if |s| < width then s + Repeat(' ', width - |s|) else s
  }

  lemma LJustShape(s: string, width: nat)
    ensures LJust(s, width)[..|s|] == s
    ensures forall i :: |s| <= i < |LJust(s, width)| ==> LJust(s, width)[i] == ' '
  {
  }

  /** `s.rjust(width)`: pads with spaces on the left, never truncates. */
  function RJust(s: string, width: nat): (r: string)
    ensures |r| == Max(|s|, width)
  {
    if |s| < width then Repeat(' ', width - |s|) + s else s
  }

  lemma RJustShape(s: string, width: nat)
    ensures var r := RJust(s, width);
      r[|r| - |s|..] == s && forall i :: 0 <= i < |r| - |s| ==> r[i] == ' '
  {
  }

  /** `c.center(3)` for a one-character string: one space on either side. */
  function Center3(c: char): string { [' ', c, ' '] }

  predicate IsDigit(c: char) { '0' <= c <= '9' }

  predicate AllDigits(s: string) { forall i :: 0 <= i < |s| ==> IsDigit(s[i]) }

  function DigitChar(d: nat): (c: char)
    requires d < 10
    ensures IsDigit(c) && c as int == 48 + d
  {
    (48 + d) as char
  }

  function DigitValue(c: char): (d: nat)
    requires IsDigit(c)
    ensures d < 10 && DigitChar(d) == c
  {
    c as int - 48
  }

  /** `str(n)` for a natural number: decimal digits, no leading zero. */
  function NatDigits(n: nat): (r: string)
    ensures |r| >= 1 && AllDigits(r)
    ensures |r| > 1 ==> r[0] != '0'
  {
    if n < 10 then [DigitChar(n)] else NatDigits(n / 10) + [DigitChar(n % 10)]
  }

  /** The number a string of decimal digits denotes (the inverse of NatDigits). */
  function DigitsValue(s: string): nat
    requires AllDigits(s)
  {
    if s == [] then 0 else DigitsValue(s[..|s| - 1]) * 10 + DigitValue(s[|s| - 1])
  }

  lemma {:induction false} DigitsRoundTrip(n: nat)
    ensures DigitsValue(NatDigits(n)) == n
  {
    if n >= 10 {
      var r := NatDigits(n);
      assert r[..|r| - 1] == NatDigits(n / 10);
      DigitsRoundTrip(n / 10);
    }
  }

  function Pow10(k: nat): (p: nat)
    ensures p >= 1
  {
    if k == 0 then 1 else 10 * Pow10(k - 1)
  }

  /** NatDigits(n) fits in k >= 1 characters exactly when n < 10^k. */
  lemma {:induction false} DigitsLength(n: nat, k: nat)
    requires k >= 1
    ensures |NatDigits(n)| <= k <==> n < Pow10(k)
  {
    if n < 10 {
      Pow10AtLeastTen(k);
    } else if k == 1 {
      assert |NatDigits(n)| == |NatDigits(n / 10)| + 1 >= 2;
    } else {
      DigitsLength(n / 10, k - 1);
      assert n / 10 < Pow10(k - 1) <==> n < 10 * Pow10(k - 1);
    }
  }

  lemma {:induction false} Pow10AtLeastTen(k: nat)
    requires k >= 1
    ensures Pow10(k) >= 10
  {
    if k > 1 {
      Pow10AtLeastTen(k - 1);
    }
  }

  /** The two decimals of an amount: r cents, 0 <= r < 100, zero-padded. */
  function TwoDigits(r: nat): string
    requires r < 100
  {
    [DigitChar(r / 10), DigitChar(r % 10)]
  }

  /** What Fixed2 writes after the sign: whole units, a point, two decimals. */
  function Unsigned2(m: nat): string
  {
    NatDigits(m / 100) + "." + TwoDigits(m % 100)
  }

  /**
   * Python's `f'{x:.2f}'` for an amount of x cents: an optional minus sign,
   * the whole units, a point and exactly two decimals.
   */
  function Fixed2(cents: int): (r: string)
    ensures |r| >= 4
  {
    if cents < 0 then "-" + Unsigned2(-cents) else Unsigned2(cents)
  }

  /** Fixed2 writes a sign, digits and a point only: no space, no newline. */
  lemma Fixed2Characters(cents: int)
    ensures '\n' !in Fixed2(cents) && ' ' !in Fixed2(cents)
  {
    var m := if cents < 0 then -cents else cents;
    var digits := NatDigits(m / 100);
    assert '\n' !in digits && ' ' !in digits by {
      forall i | 0 <= i < |digits| ensures digits[i] != '\n' && digits[i] != ' ' {
        assert IsDigit(digits[i]);
      }
    }
  }

  /** Reads back a number written with two decimals, as Fixed2 writes it. */
  function ParseFixed2(s: string): Option<int>
  {
    if |s| > 0 && s[0] == '-' then
      match ParseUnsigned2(s[1..])
      case Some(m) => Some(-m)
      case None => None
    else ParseUnsigned2(s)
  }

  /** Reads back whole units, a point and two decimals, as Unsigned2 writes them. */
  function ParseUnsigned2(body: string): Option<int>
  {
    if |body| < 4 || body[|body| - 3] != '.' then None
    else if !AllDigits(body[..|body| - 3]) || !AllDigits(body[|body| - 2..]) then None
    else Some(DigitsValue(body[..|body| - 3]) * 100 + DigitsValue(body[|body| - 2..]))
  }

  lemma Unsigned2RoundTrip(m: nat)
    ensures ParseUnsigned2(Unsigned2(m)) == Some(m)
    ensures IsDigit(Unsigned2(m)[0])
  {
    var body := Unsigned2(m);
    var whole := NatDigits(m / 100);
    var frac := TwoDigits(m % 100);
    assert body[..|body| - 3] == whole;
    assert body[|body| - 2..] == frac;
    DigitsRoundTrip(m / 100);
    assert frac[..1] == [frac[0]];
    assert DigitsValue([frac[0]]) == m % 100 / 10;
  }

  lemma Fixed2RoundTrip(cents: int)
    ensures ParseFixed2(Fixed2(cents)) == Some(cents)
  {
    var f := Fixed2(cents);
    if cents < 0 {
      Unsigned2RoundTrip(-cents);
      assert f[0] == '-' && f[1..] == Unsigned2(-cents);
    } else {
      Unsigned2RoundTrip(cents);
      assert f == Unsigned2(cents) && f[0] != '-';
    }
  }

  /** `f'{x:.2f}'` fits in seven characters exactly for -999.99 ..= 9999.99. */
  lemma Fixed2Width(cents: int)
    ensures |Fixed2(cents)| <= 7 <==> -100000 < cents < 1000000
  {
    var m := if cents < 0 then -cents else cents;
    assert |Fixed2(cents)| == (if cents < 0 then 1 else 0) + |Unsigned2(m)|;
    if cents < 0 {
      DigitsLength(m / 100, 3);
      assert Pow10(3) == 1000;
    } else {
      DigitsLength(m / 100, 4);
      assert Pow10(4) == 10000;
    }
  }

  /** `'\n'.join(lines)`. */
  function JoinLines(lines: seq<string>): string
  {
    if |lines| == 0 then ""
    else if |lines| == 1 then lines[0]
    else JoinLines(lines[..|lines| - 1]) + "\n" + lines[|lines| - 1]
  }

  /** Every line followed by a newline: what repeated `+= line + '\n'` builds. */
  function Terminated(lines: seq<string>): string
  {
    if lines == [] then "" else Terminated(lines[..|lines| - 1]) + lines[|lines| - 1] + "\n"
  }

  /** `s.split('\n')`: the reference the joined outputs are read back with. */
  function SplitLines(s: string): (r: seq<string>)
    ensures |r| >= 1
  {
    if s == [] then [""] else PushChar(s[0], SplitLines(s[1..]))
  }

  /** `s.rstrip('\n')`. */
  function RStripNewlines(s: string): (r: string)
    ensures |r| <= |s| && r == s[..|r|]
    ensures r == [] || r[|r| - 1] != '\n'
    ensures forall i :: |r| <= i < |s| ==> s[i] == '\n'
  {
    if |s| > 0 && s[|s| - 1] == '\n' then RStripNewlines(s[..|s| - 1]) else s
  }

  lemma {:induction false} SplitNoNewline(s: string)
    requires '\n' !in s
    ensures SplitLines(s) == [s]
  {
    if s != [] {
      SplitNoNewline(s[1..]);
      assert [s[0]] + s[1..] == s;
    }
  }

  /** Splitting at a newline splits each side separately. */
  lemma {:induction false} SplitAtNewline(a: string, b: string)
    ensures SplitLines(a + "\n" + b) == SplitLines(a) + SplitLines(b)
  {
    if a == [] {
      assert a + "\n" + b == ['\n'] + b;
      SplitFront('\n', b);
    } else {
      var tail := a[1..];
      assert a == [a[0]] + tail;
      assert a + "\n" + b == [a[0]] + (tail + "\n" + b);
      SplitFront(a[0], tail);
      SplitFront(a[0], tail + "\n" + b);
      SplitAtNewline(tail, b);
      PushLine(a[0], SplitLines(tail), SplitLines(b));
    }
  }

  /** `split` of a string read as its first character and the rest. */
  lemma SplitFront(c: char, t: string)
    ensures SplitLines([c] + t) == PushChar(c, SplitLines(t))
  {
    assert ([c] + t)[0] == c && ([c] + t)[1..] == t;
  }

  /** The lines of `[c] + t`, given the lines of `t`. */
  function PushChar(c: char, lines: seq<string>): seq<string>
    requires |lines| >= 1
  {
    if c == '\n' then [""] + lines else [[c] + lines[0]] + lines[1..]
  }

  lemma PushLine(c: char, left: seq<string>, right: seq<string>)
    requires |left| >= 1
    ensures PushChar(c, left + right) == PushChar(c, left) + right
  {
    if c != '\n' {
      assert (left + right)[1..] == left[1..] + right;
    }
  }

  /** Joining lines that hold no newline and splitting again gives them back. */
  lemma {:induction false} SplitJoinLines(lines: seq<string>)
    requires |lines| >= 1
    requires forall i :: 0 <= i < |lines| ==> '\n' !in lines[i]
    ensures SplitLines(JoinLines(lines)) == lines
  {
    var n := |lines|;
    SplitNoNewline(lines[n - 1]);
    if n > 1 {
      SplitJoinLines(lines[..n - 1]);
      SplitAtNewline(JoinLines(lines[..n - 1]), lines[n - 1]);
      assert lines[..n - 1] + [lines[n - 1]] == lines;
    }
  }

  lemma {:induction false} TerminatedIsJoinedLines(lines: seq<string>)
    requires |lines| >= 1
    ensures Terminated(lines) == JoinLines(lines) + "\n"
  {
    var n := |lines|;
    if n == 1 {
      assert lines[..0] == [];
    } else {
      TerminatedIsJoinedLines(lines[..n - 1]);
    }
  }

  lemma TerminatedSingle(line: string)
    ensures Terminated([line]) == line + "\n"
  {
    assert [line][..0] == [];
  }

  /** Extending a slice by one element, behind a fixed prefix. */
  lemma ExtendSlice<T>(prefix: seq<T>, s: seq<T>, k: nat)
    requires k < |s|
    ensures prefix + s[..k] + [s[k]] == prefix + s[..k + 1]
  {
    assert s[..k + 1] == s[..k] + [s[k]];
  }

  lemma TerminatedSnoc(lines: seq<string>, line: string)
    ensures Terminated(lines + [line]) == Terminated(lines) + line + "\n"
  {
    assert (lines + [line])[..|lines|] == lines;
  }

  lemma {:induction false} TerminatedAppend(a: seq<string>, b: seq<string>)
    ensures Terminated(a + b) == Terminated(a) + Terminated(b)
  {
    if b != [] {
      var n := |b|;
      TerminatedAppend(a, b[..n - 1]);
      assert (a + b)[..|a + b| - 1] == a + b[..n - 1];
    } else {
      assert a + b == a;
    }
  }

  /**
   * Stripping the trailing newlines off lines that were each terminated gives
   * the lines joined, provided the last one ends in something else.
   */
  lemma StripTerminated(lines: seq<string>)
    requires |lines| >= 1
    requires |lines[|lines| - 1]| > 0
    requires lines[|lines| - 1][|lines[|lines| - 1]| - 1] != '\n'
    ensures RStripNewlines(Terminated(lines)) == JoinLines(lines)
  {
    TerminatedIsJoinedLines(lines);
    var j := JoinLines(lines);
    JoinEndsWithLast(lines);
    assert (j + "\n")[..|j|] == j;
  }

  lemma {:induction false} JoinEndsWithLast(lines: seq<string>)
    requires |lines| >= 1
    ensures |JoinLines(lines)| >= |lines[|lines| - 1]|
    ensures JoinLines(lines)[|JoinLines(lines)| - |lines[|lines| - 1]|..] == lines[|lines| - 1]
  {
  }
}
