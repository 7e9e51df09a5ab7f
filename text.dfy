/**
 * The few pieces of Ruby's String and Array behaviour that the engine's
 * messages are built from: `Array#join`, string repetition and the decimal
 * rendering of an Integer (`Integer#to_s`).
 */
module Text {

  /** `[x] * n` */
  function Repeat<T>(x: T, n: nat): (r: seq<T>)
    ensures |r| == n
    ensures forall i :: 0 <= i < n ==> r[i] == x
  {
    seq(n, _ => x)
  }

  /** `" " * n` */
  function Spaces(n: nat): string
  {
    Repeat(' ', n)
  }

  /**
   * The items in order, with `seps[i]` written between `items[i]` and
   * `items[i + 1]`.
   */
  function Interleave(items: seq<string>, seps: seq<string>): string
    requires |items| == 0 || |seps| == |items| - 1
    decreases |items|
  {
    if |items| == 0 then ""
    else if |items| == 1 then items[0]
    else Interleave(items[..|items| - 1], seps[..|seps| - 1]) + seps[|seps| - 1] + items[|items| - 1]
  }

  /** `parts.join(sep)` */
  function Join(parts: seq<string>, sep: string): string
  {
    Interleave(parts, Repeat(sep, if |parts| == 0 then 0 else |parts| - 1))
  }

  /** The step a left-to-right join takes: `Join(s + [x])` extends `Join(s)`. */
  lemma {:induction false} JoinSnoc(parts: seq<string>, x: string, sep: string)
    ensures Join(parts + [x], sep) == if |parts| == 0 then x else Join(parts, sep) + sep + x
  {
    var all := parts + [x];
    assert all[..|all| - 1] == parts;
    if |parts| > 0 {
      var seps := Repeat(sep, |parts|);
      assert seps[..|seps| - 1] == Repeat(sep, |parts| - 1);
    }
  }

  /** `JoinSnoc` behind a prefix: what appending the separator and the next part to `prefix + Join(parts)` gives. */
  lemma JoinSnocAfter(prefix: string, parts: seq<string>, x: string, sep: string)
    ensures prefix + Join(parts + [x], sep) == if |parts| == 0 then prefix + x else prefix + Join(parts, sep) + sep + x
  {
    JoinSnoc(parts, x, sep);
    if |parts| > 0 {
      var j := Join(parts, sep);
      assert prefix + (j + sep + x) == prefix + j + sep + x;
    }
  }

  lemma JoinSingle(x: string, sep: string)
    ensures Join([x], sep) == x
  {
  }

  lemma PrefixOfConcat<T>(a: seq<T>, b: seq<T>)
    ensures a <= a + b
  {
    assert (a + b)[..|a|] == a;
  }

  lemma SuffixOfConcat<T>(a: seq<T>, b: seq<T>)
    ensures |b| <= |a + b| && (a + b)[|a + b| - |b|..] == b
  {
    assert (a + b)[|a|..] == b;
  }

  /** A join opens with its first item. */
  lemma {:induction false} InterleaveStartsWithFirst(items: seq<string>, seps: seq<string>)
    requires |items| >= 1 && |seps| == |items| - 1
    ensures items[0] <= Interleave(items, seps)
  {
    if |items| >= 2 {
      InterleaveStartsWithFirst(items[..|items| - 1], seps[..|seps| - 1]);
    }
  }

  // ---------------------------------------------------------------------
  // Integer#to_s
  // ---------------------------------------------------------------------

  predicate IsDigit(c: char) { '0' <= c <= '9' }

  function DigitChar(d: nat): (c: char)
    requires d < 10
    ensures IsDigit(c)
  {
    (('0' as int) + d) as char
  }

  function DigitValue(c: char): (d: nat)
    requires IsDigit(c)
    ensures d < 10 && DigitChar(d) == c
  {
    (c as int) - ('0' as int)
  }

  /** The decimal digits of `n`, most significant first, without leading zeros. */
  function NatToString(n: nat): (s: string)
    ensures |s| >= 1
    ensures forall i :: 0 <= i < |s| ==> IsDigit(s[i])
    decreases n
  {
    if n < 10 then [DigitChar(n)] else NatToString(n / 10) + [DigitChar(n % 10)]
  }

  /** `Integer#to_s` */
  function IntToString(i: int): (s: string)
    ensures |s| >= 1
  {
    if i < 0 then "-" + NatToString(-i) else NatToString(i)
  }

  /** The value of a string of decimal digits. */
  function ParseDigits(s: string): nat
    requires forall i :: 0 <= i < |s| ==> IsDigit(s[i])
  {
    if |s| == 0 then 0 else ParseDigits(s[..|s| - 1]) * 10 + DigitValue(s[|s| - 1])
  }

  /** The rendering loses nothing: it reads back as the same number. */
  lemma {:induction false} NatToStringRoundTrip(n: nat)
    ensures ParseDigits(NatToString(n)) == n
    decreases n
  {
    var s := NatToString(n);
    if n >= 10 {
      NatToStringRoundTrip(n / 10);
      assert s[..|s| - 1] == NatToString(n / 10);
    } else {
      assert s[..|s| - 1] == [];
    }
  }

  /** Different numbers are written differently. */
  lemma IntToStringInjective(a: int, b: int)
    requires IntToString(a) == IntToString(b)
    ensures a == b
  {
    SignOfString(a);
    SignOfString(b);
    if a < 0 && b < 0 {
      NegativeReadsBack(a);
      NegativeReadsBack(b);
    } else if a >= 0 && b >= 0 {
      NatToStringRoundTrip(a);
      NatToStringRoundTrip(b);
    }
  }

  /** After its '-', a negative number reads back as its absolute value. */
  lemma NegativeReadsBack(a: int)
    requires a < 0
    ensures IntToString(a)[1..] == NatToString(-a)
    ensures ParseDigits(IntToString(a)[1..]) == -a
  {
    assert IntToString(a)[1..] == NatToString(-a);
    NatToStringRoundTrip(-a);
  }

  /** A written number starts with '-' exactly when it is negative. */
  lemma SignOfString(a: int)
    ensures IntToString(a)[0] == '-' <==> a < 0
  {
    if a >= 0 {
      assert IsDigit(NatToString(a)[0]);
    }
  }
}
