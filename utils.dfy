/**
 * The text helpers behind every message the engine writes:
 * ordinal numbers, the "A, B or C" join, the collapsing of a long list of
 * declaration locations, and truncation of a long inspected value.
 */
module Utils {
  import opened Errors
  import opened Text

  // ---------------------------------------------------------------------
  // ordinalize
  // ---------------------------------------------------------------------

  /** `ordinalize(v)`: the number followed by its English ordinal suffix. */
  function Ordinalize(v: int): (r: string)
    ensures |r| == |IntToString(v)| + 2 && r[..|r| - 2] == IntToString(v)
    ensures r[|r| - 2..] in {"st", "nd", "rd", "th"}
  {
    var s := IntToString(v);
    if 11 <= v % 100 <= 13 then s + "th"
    else if v % 10 == 1 then s + "st"
    else if v % 10 == 2 then s + "nd"
    else if v % 10 == 3 then s + "rd"
    else s + "th"
  }

  /**
   * The suffix an English writer picks by looking at the written number:
   * "th" for anything in the teens, otherwise by the last digit.
   */
  function SuffixForDigits(digits: string): string
    requires |digits| >= 1
  {
    var last := digits[|digits| - 1];
    if |digits| >= 2 && digits[|digits| - 2] == '1' then "th"
    else if last == '1' then "st"
    else if last == '2' then "nd"
    else if last == '3' then "rd"
    else "th"
  }

  lemma {:induction false} LastDigit(m: nat)
    ensures NatToString(m)[|NatToString(m)| - 1] == DigitChar(m % 10)
  {
  }

  lemma DigitCharInjective(a: nat, b: nat)
    requires a < 10 && b < 10 && DigitChar(a) == DigitChar(b)
    ensures a == b
  {
  }

  /** The two last decimal digits of `n` decide `n % 100`. */
  lemma LastTwoDigits(n: nat)
    ensures n % 100 == 10 * ((n / 10) % 10) + n % 10
  {
    var q, d := n / 10, n % 10;
    var q2, d2 := q / 10, q % 10;
    assert n == 10 * q + d;
    assert q == 10 * q2 + d2;
    assert n == 100 * q2 + (10 * d2 + d);
    HundredRemainder(n, q2, 10 * d2 + d);
  }

  lemma HundredRemainder(n: nat, q: nat, t: nat)
    requires n == 100 * q + t && t < 100
    ensures n % 100 == t
  {
  }

  /**
   * The arithmetic of `ordinalize` agrees with the reading of the written
   * number: for every non-negative `n`, the suffix is the one its last two
   * digits call for.
   */
  lemma OrdinalizeMatchesWrittenDigits(n: nat)
    ensures Ordinalize(n) == NatToString(n) + SuffixForDigits(NatToString(n))
  {
    var s := NatToString(n);
    LastDigit(n);
    LastTwoDigits(n);
    if n >= 10 {
      assert s == NatToString(n / 10) + [DigitChar(n % 10)];
      LastDigit(n / 10);
      assert s[|s| - 2] == DigitChar((n / 10) % 10);
      if s[|s| - 2] == '1' {
        DigitCharInjective((n / 10) % 10, 1);
      } else {
        assert (n / 10) % 10 != 1;
      }
    }
    var last := s[|s| - 1];
    if last == '1' { DigitCharInjective(n % 10, 1); }
    if last == '2' { DigitCharInjective(n % 10, 2); }
    if last == '3' { DigitCharInjective(n % 10, 3); }
  }

  /** The ordinals the argument messages show most often. */
  lemma OrdinalizeSmallExamples()
    ensures Ordinalize(1) == "1st" && Ordinalize(2) == "2nd" && Ordinalize(3) == "3rd"
    ensures Ordinalize(4) == "4th" && Ordinalize(6) == "6th"
  {
  }

  /** The teens take "th". */
  lemma OrdinalizeTeensExamples()
    ensures Ordinalize(11) == "11th" && Ordinalize(12) == "12th" && Ordinalize(13) == "13th"
  {
    assert NatToString(11) == "11" && NatToString(12) == "12" && NatToString(13) == "13";
  }

  /** Past the teens the last digit decides again, whatever comes before it. */
  lemma OrdinalizeBeyondTeensExamples()
    ensures Ordinalize(21) == "21st" && Ordinalize(22) == "22nd" && Ordinalize(113) == "113th"
  {
    assert NatToString(21) == "21" && NatToString(22) == "22";
    assert NatToString(11) == "11";
    assert NatToString(113) == NatToString(11) + "3";
  }

  // ---------------------------------------------------------------------
  // string_join_using_or_conjunction
  // ---------------------------------------------------------------------

  /** The separators of an or-join of n items: ", " everywhere except " or " before the last. */
  function OrSeparators(n: nat): (seps: seq<string>)
    ensures |seps| == if n == 0 then 0 else n - 1
    ensures n >= 2 ==> seps[n - 2] == " or " && forall i :: 0 <= i < n - 2 ==> seps[i] == ", "
  {
    seq(if n == 0 then 0 else n - 1, i => if i == n - 2 then " or " else ", ")
  }

  /** Every string once, in order, with the or-join's separators between them. */
  function OrJoin(strings: seq<string>): (r: string)
    ensures |strings| == 0 ==> r == ""
    ensures |strings| == 1 ==> r == strings[0]
    ensures |strings| >= 1 ==> strings[0] <= r
    ensures |strings| >= 2 ==>
      var last := " or " + strings[|strings| - 1];
      |last| <= |r| && r[|r| - |last|..] == last
  {
    var seps := OrSeparators(|strings|);
    if |strings| >= 1 then
      InterleaveStartsWithFirst(strings, seps);
      if |strings| >= 2 then
        var front := Interleave(strings[..|strings| - 1], seps[..|seps| - 1]);
        SuffixOfConcat(front, " or " + strings[|strings| - 1]);
        assert front + seps[|seps| - 1] + strings[|strings| - 1] == front + (" or " + strings[|strings| - 1]);
        Interleave(strings, seps)
      else Interleave(strings, seps)
    else Interleave(strings, seps)
  }

  /**
   * `string_join_using_or_conjunction`: the first item bare, the last one
   * after " or ", every other one after ", ".
   */
  method StringJoinUsingOrConjunction(strings: seq<string>) returns (ret: string)
    ensures ret == OrJoin(strings)
  {
    ghost var seps := OrSeparators(|strings|);
    ret := "";
    var i := 0;
    while i < |strings|
      invariant 0 <= i <= |strings|
      invariant ret == Interleave(strings[..i], seps[..if i == 0 then 0 else i - 1])
    {
      if i == 0 {
      } else if i == |strings| - 1 {
        ret := ret + " or ";
      } else {
        ret := ret + ", ";
      }
      ret := ret + strings[i];
      if i > 0 {
        assert strings[..i + 1][..i] == strings[..i];
        assert seps[..i][..i - 1] == seps[..i - 1];
      }
      i := i + 1;
    }
    assert strings[..i] == strings;
    assert i > 0 ==> seps[..i - 1] == seps;
  }

  /** The shapes of the or-join: "", "A", "A or B", and "A, B or C" with no comma before "or". */
  lemma OrJoinShapes(strings: seq<string>)
    ensures |strings| == 0 ==> OrJoin(strings) == ""
    ensures |strings| == 1 ==> OrJoin(strings) == strings[0]
    ensures |strings| == 2 ==> OrJoin(strings) == strings[0] + " or " + strings[1]
    ensures |strings| >= 2 ==>
      OrJoin(strings) == Join(strings[..|strings| - 1], ", ") + " or " + strings[|strings| - 1]
  {
    var n := |strings|;
    if n >= 2 {
      var seps := OrSeparators(n);
      var front := strings[..n - 1];
      assert seps[..|seps| - 1] == Repeat(", ", n - 2);
      assert OrJoin(strings) == Interleave(front, seps[..n - 2]) + " or " + strings[n - 1];
      assert Join(front, ", ") == Interleave(front, seps[..n - 2]);
      if n == 2 {
        assert front == [strings[0]];
        assert Join(front, ", ") == strings[0];
      }
    }
  }

  lemma OrJoinThree(a: string, b: string, c: string)
    ensures OrJoin([a, b, c]) == a + ", " + b + " or " + c
  {
    OrJoinShapes([a, b, c]);
    assert [a, b, c][..2] == [a] + [b];
    JoinSnoc([a], b, ", ");
  }

  // ---------------------------------------------------------------------
  // backtrace_locations_to_captions
  // ---------------------------------------------------------------------

  /** The characters `\s` matches in a Ruby regular expression. */
  predicate RegexpSpace(c: char)
  {
    c == ' ' || c == '\t' || c == '\n' || c == '\r' || c == '\U{000B}' || c == '\U{000C}'
  }

  function LeadingSpaces(s: string): (k: nat)
    ensures k <= |s|
    ensures forall i :: 0 <= i < k ==> RegexpSpace(s[i])
    ensures k < |s| ==> !RegexpSpace(s[k])
  {
    if |s| > 0 && RegexpSpace(s[0]) then 1 + LeadingSpaces(s[1..]) else 0
  }

  /** `s.sub(/\A\s*from /, '')` */
  function StripLeadingFrom(s: string): string
  {
    var rest := s[LeadingSpaces(s)..];
    if |rest| >= 5 && rest[..5] == "from " then rest[5..] else s
  }

  lemma StripLeadingFromOfCaption(x: string)
    ensures StripLeadingFrom("from " + x) == x
  {
    assert ("from " + x)[0] == 'f';
    assert ("from " + x)[..5] == "from ";
  }

  /** `"from #{x}"` for every location, in order */
  function FromCaptions(locations: seq<string>): (r: seq<string>)
    ensures |r| == |locations|
    ensures forall i :: 0 <= i < |r| ==> r[i] == "from " + locations[i]
  {
    seq(|locations|, i requires 0 <= i < |locations| => "from " + locations[i])
  }

  /** The line that stands for the frames left out of a long location list. */
  function FramesMarker(omitted: int): string
  {
    " ... (" + IntToString(omitted) + " frames) ..."
  }

  /**
   * `backtrace_locations_to_captions`: "from X" per location, at most nine
   * lines (the first four, a marker, the last four), and the very first
   * line without its "from ".
   */
  function BacktraceLocationsToCaptions(locations: seq<string>): (r: seq<string>)
    ensures |locations| <= 9 ==> |r| == |locations|
    ensures |locations| <= 9 ==> forall i :: 1 <= i < |r| ==> r[i] == "from " + locations[i]
    ensures |locations| > 9 ==> |r| == 9
    ensures |locations| > 9 ==> forall i :: 1 <= i < 4 ==> r[i] == "from " + locations[i]
    ensures |locations| > 9 ==> r[4] == FramesMarker(|locations| - 8)
    ensures |locations| > 9 ==> forall i :: 5 <= i < 9 ==> r[i] == "from " + locations[|locations| - 9 + i]
    ensures |locations| >= 1 ==> r[0] == locations[0]
  {
    var n := |locations|;
    var locs :=
      if n > 9 then FromCaptions(locations[..4]) + [FramesMarker(n - 8)] + FromCaptions(locations[n - 4..])
      else FromCaptions(locations);
    if |locs| >= 1 then
      StripLeadingFromOfCaption(locations[0]);
      locs[0 := StripLeadingFrom(locs[0])]
    else
      locs
  }

  // ---------------------------------------------------------------------
  // truncate
  // ---------------------------------------------------------------------

  /**
   * `truncate` as its documentation promises: a string no longer than
   * `truncateAt` is returned as it is; a longer one is cut so that the
   * omission fits, and the result is as long as `truncateAt` (or as the
   * omission, if that alone is longer).
   */
  function Truncate(str: string, truncateAt: int, omission: string): (r: string)
    ensures |str| <= truncateAt ==> r == str
    ensures |str| > truncateAt ==> |r| == if truncateAt < |omission| then |omission| else truncateAt
    ensures |str| > truncateAt ==>
      |omission| <= |r| && r[|r| - |omission|..] == omission && r[..|r| - |omission|] == str[..|r| - |omission|]
  {
    if |str| <= truncateAt then str
    else
      var stop := truncateAt - |omission|;
      (if 0 <= stop then str[..stop] else "") + omission
  }

  /** The total never exceeds the limit once the limit leaves room for the omission. */
  lemma TruncateWithinLimit(str: string, truncateAt: int, omission: string)
    requires |omission| <= truncateAt
    ensures |Truncate(str, truncateAt, omission)| <= truncateAt
  {
  }

  /**
   * `truncate` as written: the cut is taken from `self`, which inside this
   * module function is the Utils module itself; it has no `[]`, so every
   * string that needs cutting raises NoMethodError.
   */
  function TruncateAsWritten(str: string, truncateAt: int, omission: string): (r: Result<string>)
    ensures r.Ok? <==> |str| <= truncateAt
    ensures r.Ok? ==> r.value == str
  {
    if |str| <= truncateAt then Ok(str)
    else Err(RubyError("NoMethodError", "undefined method `[]' for NeuronCheckSystem::Utils:Module"))
  }

  /** A 41-character string under the 40-character limit the messages use. */
  lemma TruncateAsWrittenRaises()
    ensures TruncateAsWritten(Repeat('a', 41), 40, "...").Err?
    ensures Truncate(Repeat('a', 41), 40, "...") == Repeat('a', 37) + "..."
  {
    assert Repeat('a', 41)[..37] == Repeat('a', 37);
  }
}
