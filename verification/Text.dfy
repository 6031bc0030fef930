/** Decimal printing and parsing, and joining and splitting on one separator: the string
    operations the version strings and purchase-order numbers are built from.

    `Print` is Python's str() of a natural number and `Pad` its zero-padded form; `Value` is int() of
    a run of ASCII digits; `Join` and `Split` are str.join and str.split with one character between
    the parts. Each pair undoes the other, both ways: a number printed at any width reads back as
    itself, a run of digits is the padded form of the number it denotes and of no other, and
    splitting a joined list gives the list back when no part holds the separator. What a single
    digit counts, that a printed number has no leading zeros, and how wide a padded one is, are
    stated in figures, without these functions. */
module Text {

  // ----- decimal digits

  predicate IsDigit(c: char) {
    '0' <= c <= '9'
  }

  predicate AllDigits(s: string) {
    forall i | 0 <= i < |s| :: IsDigit(s[i])
  }

  function DigitValue(c: char): (d: nat)
    requires IsDigit(c)
    ensures d < 10
  {
    c as int - '0' as int
  }

  function DigitChar(d: nat): (c: char)
    requires d < 10
    ensures IsDigit(c) && DigitValue(c) == d
  {
    ('0' as int + d) as char
  }

  /** The number a run of digits denotes (0 for the empty run). */
  function Value(s: string): nat
    requires AllDigits(s)
  {
    if s == [] then 0 else 10 * Value(s[..|s| - 1]) + DigitValue(s[|s| - 1])
  }

  /** The shortest decimal spelling of n. */
  function Print(n: nat): (s: string)
    ensures AllDigits(s) && s != []
    ensures Value(s) == n
  {
    if n < 10 then
      var s := [DigitChar(n)];
      assert s[..0] == [];
      s
    else
      var s := Print(n / 10) + [DigitChar(n % 10)];
      assert s[..|s| - 1] == Print(n / 10);
      s
  }

  function Zeros(k: nat): (s: string)
    ensures |s| == k && AllDigits(s)
  {
    seq(k, _ => '0')
  }

  /** n in decimal, zero-padded on the left to at least `width` digits (Python's `:0{width}d`). */
  function Pad(n: nat, width: nat): (s: string)
    ensures AllDigits(s) && s != [] && |s| >= width
  {
    var s := Print(n);
    Zeros(if |s| < width then width - |s| else 0) + s
  }

  lemma {:induction false} LeadingZeros(k: nat, s: string)
    requires AllDigits(s)
    ensures Value(Zeros(k) + s) == Value(s)
    decreases |s|, k
  {
    var t := Zeros(k) + s;
    if s != [] {
      assert t[..|t| - 1] == Zeros(k) + s[..|s| - 1];
      LeadingZeros(k, s[..|s| - 1]);
    } else if k > 0 {
      assert t[..|t| - 1] == Zeros(k - 1) + s;
      LeadingZeros(k - 1, s);
    } else {
      assert t == s;
    }
  }

  /** Padding does not change the number read back. */
  lemma ValueOfPad(n: nat, width: nat)
    ensures Value(Pad(n, width)) == n
  {
    var s := Print(n);
    LeadingZeros(if |s| < width then width - |s| else 0, s);
  }

  function Pow10(k: nat): (p: nat)
    ensures p >= 1
  {
    if k == 0 then 1 else 10 * Pow10(k - 1)
  }

  lemma {:induction false} PrintLength(n: nat, width: nat)
    requires width > 0 && n < Pow10(width)
    ensures |Print(n)| <= width
  {
    if n >= 10 {
      PrintLength(n / 10, width - 1);
    }
  }

  /** A number that fits in `width` digits is padded to exactly that many. */
  lemma PadLength(n: nat, width: nat)
    requires width > 0 && n < Pow10(width)
    ensures |Pad(n, width)| == width
  {
    PrintLength(n, width);
  }

  /** Each digit counts ten times the one to its right. */
  lemma ValueOfDigits(s: string, c: char)
    requires AllDigits(s) && IsDigit(c)
    ensures Value([c]) == c as int - 48 && Value(s + [c]) == 10 * Value(s) + (c as int - 48)
  {
    assert (s + [c])[..|s|] == s;
    assert [c][..0] == [];
  }

  /** A number is spelled without leading zeros. */
  lemma {:induction false} PrintIsShortest(n: nat)
    ensures |Print(n)| == 1 || Print(n)[0] != '0'
    ensures n < 10 <==> |Print(n)| == 1
  {
    if n >= 10 {
      PrintIsShortest(n / 10);
      if n < 100 { assert Print(n / 10) == [DigitChar(n / 10)]; }
    }
  }

  /** Padding fills up to the width with zeros and never cuts. */
  lemma PadIs(n: nat, width: nat)
    ensures |Pad(n, width)| == if |Print(n)| < width then width else |Print(n)|
    ensures Pad(n, width)[|Pad(n, width)| - |Print(n)|..] == Print(n)
    ensures forall i | 0 <= i < |Pad(n, width)| - |Print(n)| :: Pad(n, width)[i] == '0'
  {
  }

  lemma LastDigit(s: string)
    requires AllDigits(s) && s != []
    ensures Value(s) == 10 * Value(s[..|s| - 1]) + (s[|s| - 1] as int - 48)
    ensures IsDigit(s[|s| - 1])
  {
  }

  /** Two runs of the same length that denote the same number are the same run. */
  lemma {:induction false} ValueInjective(s: string, t: string)
    requires AllDigits(s) && AllDigits(t) && |s| == |t| && Value(s) == Value(t)
    ensures s == t
  {
    if s != [] {
      var n := |s| - 1;
      LastDigit(s);
      LastDigit(t);
      hide Value;
      ValueInjective(s[..n], t[..n]);
      assert s == s[..n] + [s[n]] && t == t[..n] + [t[n]];
    }
  }

  lemma {:induction false} ValueBound(s: string)
    requires AllDigits(s)
    ensures Value(s) < Pow10(|s|)
  {
    if s != [] {
      ValueBound(s[..|s| - 1]);
    }
  }

  /** A run of digits is the padded spelling of the number it denotes. */
  lemma PadOfValue(s: string)
    requires AllDigits(s) && s != []
    ensures s == Pad(Value(s), |s|)
  {
    ValueBound(s);
    PadLength(Value(s), |s|);
    ValueOfPad(Value(s), |s|);
    ValueInjective(s, Pad(Value(s), |s|));
  }

  // ----- joining and splitting

  /** parts[0] sep parts[1] sep ... (Python's `sep.join(parts)`). */
  function Join(parts: seq<string>, sep: char): string
    requires parts != []
  {
    if |parts| == 1 then parts[0] else parts[0] + [sep] + Join(parts[1..], sep)
  }

  lemma JoinThree(a: string, b: string, c: string, sep: char)
    ensures Join([a, b, c], sep) == a + [sep] + b + [sep] + c
  {
    assert [a, b, c][1..] == [b, c] && [b, c][1..] == [c];
    assert Join([c], sep) == c;
    assert Join([b, c], sep) == b + [sep] + c;
    assert a + [sep] + (b + [sep] + c) == a + [sep] + b + [sep] + c;
  }

  /** Python's `s.split(sep)`: always at least one part. */
  function Split(s: string, sep: char): (parts: seq<string>)
    ensures parts != []
    ensures forall i | 0 <= i < |parts| :: sep !in parts[i]
  {
    if s == [] then [""]
    else
      var rest := Split(s[1..], sep);
      if s[0] == sep then [""] + rest else [[s[0]] + rest[0]] + rest[1..]
  }

  lemma {:induction false} SplitPlain(p: string, sep: char)
    requires sep !in p
    ensures Split(p, sep) == [p]
  {
    if p != [] {
      SplitPlain(p[1..], sep);
      assert p == [p[0]] + p[1..];
    }
  }

  lemma {:induction false} SplitAt(p: string, rest: string, sep: char)
    requires sep !in p
    ensures Split(p + [sep] + rest, sep) == [p] + Split(rest, sep)
  {
    var s := p + [sep] + rest;
    if p == [] {
      assert s[1..] == rest;
    } else {
      assert s[1..] == p[1..] + [sep] + rest;
      SplitAt(p[1..], rest, sep);
      assert p == [p[0]] + p[1..];
    }
  }

  /** Splitting undoes joining when no part holds the separator. */
  lemma {:induction false} SplitJoin(parts: seq<string>, sep: char)
    requires parts != []
    requires forall i | 0 <= i < |parts| :: sep !in parts[i]
    ensures Split(Join(parts, sep), sep) == parts
  {
    if |parts| == 1 {
      SplitPlain(parts[0], sep);
    } else {
      SplitJoin(parts[1..], sep);
      SplitAt(parts[0], Join(parts[1..], sep), sep);
    }
  }
}
