/**
 * What an Or matcher means: it accepts a value exactly when one of its
 * children does.
 */
module MatcherFacts {
  import opened Errors
  import opened Values
  import opened Matchers

  /** Some matcher of `ms` accepts `value`. */
  predicate SomeChildMatches(w: World, ms: seq<Matcher>, value: Value, receiver: Value)
  {
    exists i :: 0 <= i < |ms| && Match(w, ms[i], value, receiver) == Ok(true)
  }

  /**
   * An Or matcher whose children all answer accepts a value exactly when
   * some child accepts it; so the empty Or accepts nothing.
   */
  lemma {:induction false} OrMatchIff(w: World, ms: seq<Matcher>, locs: Locations, value: Value, receiver: Value)
    requires forall i :: 0 <= i < |ms| ==> Match(w, ms[i], value, receiver).Ok?
    ensures Match(w, OrMatcher(ms, locs), value, receiver) == Ok(SomeChildMatches(w, ms, value, receiver))
  {
    MatchAnyIff(w, ms, value, receiver);
  }

  /** A match found among the later children is a match among all of them. */
  lemma SomeLaterChildMatches(w: World, ms: seq<Matcher>, value: Value, receiver: Value)
    requires |ms| > 0 && SomeChildMatches(w, ms[1..], value, receiver)
    ensures SomeChildMatches(w, ms, value, receiver)
  {
    var tail := ms[1..];
    var j :| 0 <= j < |tail| && Match(w, tail[j], value, receiver) == Ok(true);
    assert tail[j] == ms[j + 1];
  }

  /** A match that is not the first child is one of the later children. */
  lemma SomeChildMatchesNotFirst(w: World, ms: seq<Matcher>, value: Value, receiver: Value)
    requires |ms| > 0 && SomeChildMatches(w, ms, value, receiver)
    requires Match(w, ms[0], value, receiver) != Ok(true)
    ensures SomeChildMatches(w, ms[1..], value, receiver)
  {
    var tail := ms[1..];
    var i :| 0 <= i < |ms| && Match(w, ms[i], value, receiver) == Ok(true);
    assert tail[i - 1] == ms[i];
  }

  /** Every child answering means the later children answer. */
  lemma ChildrenAnswerTail(w: World, ms: seq<Matcher>, value: Value, receiver: Value)
    requires |ms| > 0 && forall i :: 0 <= i < |ms| ==> Match(w, ms[i], value, receiver).Ok?
    ensures forall i :: 0 <= i < |ms| - 1 ==> Match(w, ms[1..][i], value, receiver).Ok?
  {
    var tail := ms[1..];
    forall i | 0 <= i < |tail|
      ensures Match(w, tail[i], value, receiver).Ok?
    {
      assert tail[i] == ms[i + 1];
    }
  }

  /** One step of `any?`: the first child, then the later ones. */
  lemma MatchAnyStep(w: World, ms: seq<Matcher>, value: Value, receiver: Value)
    requires |ms| > 0 && Match(w, ms[0], value, receiver).Ok?
    requires MatchAny(w, ms[1..], value, receiver) == Ok(SomeChildMatches(w, ms[1..], value, receiver))
    ensures MatchAny(w, ms, value, receiver) == Ok(SomeChildMatches(w, ms, value, receiver))
  {
    var first := Match(w, ms[0], value, receiver);
    if first.value {
      MatchAnyFirstAccepts(w, ms, value, receiver);
    } else {
      MatchAnyFirstRefuses(w, ms, value, receiver);
    }
  }

  /** A first child that accepts decides the answer. */
  lemma MatchAnyFirstAccepts(w: World, ms: seq<Matcher>, value: Value, receiver: Value)
    requires |ms| > 0 && Match(w, ms[0], value, receiver) == Ok(true)
    ensures MatchAny(w, ms, value, receiver) == Ok(true)
    ensures SomeChildMatches(w, ms, value, receiver)
  {
  }

  /** A first child that refuses leaves the answer to the later children. */
  lemma MatchAnyFirstRefuses(w: World, ms: seq<Matcher>, value: Value, receiver: Value)
    requires |ms| > 0 && Match(w, ms[0], value, receiver) == Ok(false)
    ensures MatchAny(w, ms, value, receiver) == MatchAny(w, ms[1..], value, receiver)
    ensures SomeChildMatches(w, ms, value, receiver) == SomeChildMatches(w, ms[1..], value, receiver)
  {
    if SomeChildMatches(w, ms, value, receiver) {
      SomeChildMatchesNotFirst(w, ms, value, receiver);
    }
    if SomeChildMatches(w, ms[1..], value, receiver) {
      SomeLaterChildMatches(w, ms, value, receiver);
    }
  }

  lemma {:induction false} MatchAnyIff(w: World, ms: seq<Matcher>, value: Value, receiver: Value)
    requires forall i :: 0 <= i < |ms| ==> Match(w, ms[i], value, receiver).Ok?
    ensures MatchAny(w, ms, value, receiver) == Ok(SomeChildMatches(w, ms, value, receiver))
  {
    if |ms| == 0 {
      return;
    }
    ChildrenAnswerTail(w, ms, value, receiver);
    MatchAnyIff(w, ms[1..], value, receiver);
    MatchAnyStep(w, ms, value, receiver);
  }
}
