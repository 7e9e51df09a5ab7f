/**
 * Expectations and matchers: how a declared expectation (`String`,
 * `1..100`, `[String, nil]`, `:self`, a keyword instance, ...) becomes a
 * matcher, what each matcher accepts, how it describes itself (a long
 * caption for messages, a short one for signatures, a meta record for the
 * declaration export) and the violation message built from it.
 *
 * Keywords call back into resolution through the keyword API (resolving a
 * nested expectation at match or caption time), so matching, captions and
 * meta records are each one group of mutually recursive functions.  They
 * terminate because a nested expectation is always a strict part of the
 * keyword instance or array that holds it (`ValueRank`).
 */
module Matchers {
  import opened Errors
  import opened Text
  import opened Values
  import Utils

  /** Declaration locations, as the `caller` strings of the declaring line */
  type Locations = seq<string>

  datatype Matcher =
    | SelfMatcher(locations: Locations)
    | ValueEqualMatcher(expected: Value, locations: Locations)
    | ObjectIdenticalMatcher(expected: Value, locations: Locations)
    | KindOfMatcher(cls: ClassRef, locations: Locations)
    | RangeMatcher(first: int, last: int, exclusive: bool, locations: Locations)
    | RegexpMatcher(source: string, locations: Locations)
    | OrMatcher(children: seq<Matcher>, locations: Locations)
    | KeywordPluginMatcher(keyword: KeywordClass, params: seq<Value>, locations: Locations)

  // ---------------------------------------------------------------------
  // Sizes, for termination
  // ---------------------------------------------------------------------

  function ValueRank(v: Value): nat
    decreases v
  {
    match v
    case VArray(items) => 1 + ValueRankSum(items)
    case VKeyword(_, params) => 4 + ValueRankSum(params)
    case _ => 1
  }

  function ValueRankSum(vs: seq<Value>): nat
    decreases vs
  {
    if |vs| == 0 then 0 else ValueRank(vs[0]) + ValueRankSum(vs[1..])
  }

  function MatcherRank(m: Matcher): nat
    decreases m
  {
    match m
    case OrMatcher(children, _) => 1 + MatcherRankSum(children)
    case KeywordPluginMatcher(_, params, _) => 4 + ValueRankSum(params)
    case _ => 1
  }

  function MatcherRankSum(ms: seq<Matcher>): nat
    decreases ms
  {
    if |ms| == 0 then 0 else MatcherRank(ms[0]) + MatcherRankSum(ms[1..])
  }

  /** The `i`-th parameter a keyword's `on_call` stored, nil when there is none. */
  function NthParam(params: seq<Value>, i: nat): Value
  {
    if i < |params| then params[i] else VNil
  }

  lemma {:induction false} ParamRank(params: seq<Value>, i: nat)
    ensures ValueRank(NthParam(params, i)) <= ValueRankSum(params) + 1
    decreases i
  {
    if 0 < i < |params| {
      ParamRank(params[1..], i - 1);
      assert NthParam(params[1..], i - 1) == NthParam(params, i);
    }
  }

  lemma TwoParamsRank(params: seq<Value>)
    ensures ValueRank(NthParam(params, 0)) + ValueRank(NthParam(params, 1)) <= ValueRankSum(params) + 2
  {
    if |params| >= 2 {
      assert NthParam(params, 1) == params[1..][0];
    }
  }

  // ---------------------------------------------------------------------
  // get_appropriate_matcher
  // ---------------------------------------------------------------------

  /**
   * `get_appropriate_matcher`: the first case that applies, in this order:
   * a declaration context (an accidental `self`) is an error, `:self`,
   * String/Symbol/Integer, true/false/nil, a class or module, a Range, a
   * Regexp, an Array (an Or of its resolved elements), a keyword instance;
   * anything else is an error.
   */
  function Resolve(w: World, e: Value, locs: Locations): (r: Result<Matcher>)
    ensures r.Ok? ==> MatcherRank(r.value) <= ValueRank(e) && r.value.locations == locs
    ensures r.Err? ==> r.error.DeclarationError?
    decreases e
  {
    if e.VDeclContext? then
      Err(DeclarationError("`self` cannot be used in declaration - use `:self` instead"))
    else if e == VSym("self") then Ok(SelfMatcher(locs))
    else if e.VStr? || e.VSym? || e.VInt? then Ok(ValueEqualMatcher(e, locs))
    else if e.VTrue? || e.VFalse? || e.VNil? then Ok(ObjectIdenticalMatcher(e, locs))
    else if e.VClass? then Ok(KindOfMatcher(e.cls, locs))
    else if e.VRange? then Ok(RangeMatcher(e.first, e.last, e.exclusive, locs))
    else if e.VRegexp? then Ok(RegexpMatcher(e.source, locs))
    else if e.VArray? then
      var children :- ResolveAll(w, e.items, locs);
      Ok(OrMatcher(children, locs))
    else if e.VKeyword? then Ok(KeywordPluginMatcher(e.keyword, e.params, locs))
    else
      Err(DeclarationError(Interp(ClassNameOf(e)) + " cannot be usable for NeuronCheck check parameter\n  value: "
                           + Inspect(w, e)))
  }

  /** `expecteds.map { |x| get_appropriate_matcher(x, locs) }`: the first failure wins. */
  function ResolveAll(w: World, items: seq<Value>, locs: Locations): (r: Result<seq<Matcher>>)
    ensures r.Ok? ==> |r.value| == |items| && MatcherRankSum(r.value) <= ValueRankSum(items)
    ensures r.Ok? ==> forall i :: 0 <= i < |r.value| ==> r.value[i].locations == locs
    ensures r.Err? ==> r.error.DeclarationError?
    decreases items
  {
    if |items| == 0 then Ok([])
    else
      var m :- Resolve(w, items[0], locs);
      var rest :- ResolveAll(w, items[1..], locs);
      assert ([m] + rest)[1..] == rest;
      Ok([m] + rest)
  }

  /** The expectations resolution accepts: no Hash, Proc, plain object or declaration context, at any depth of an Array. */
  predicate Resolvable(e: Value)
    decreases e
  {
    match e
    case VHash(_) => false
    case VProc(_) => false
    case VObject(_, _) => false
    case VDeclContext(_) => false
    case VArray(items) => forall i :: 0 <= i < |items| ==> Resolvable(items[i])
    case _ => true
  }

  lemma {:induction false} ResolveSucceedsIff(w: World, e: Value, locs: Locations)
    ensures Resolve(w, e, locs).Ok? <==> Resolvable(e)
    decreases e, 1
  {
    if e.VArray? {
      ResolveArraySucceedsIff(w, e, locs);
    } else if e.VHash? || e.VProc? || e.VObject? || e.VDeclContext? {
      UnusableRefused(w, e, locs);
    } else {
      ScalarResolves(w, e, locs);
    }
  }

  /** A Hash, a Proc, a plain object or a declaration context is refused. */
  lemma UnusableRefused(w: World, e: Value, locs: Locations)
    requires e.VHash? || e.VProc? || e.VObject? || e.VDeclContext?
    ensures Resolve(w, e, locs).Err? && !Resolvable(e)
  {
    UnusableResolveFails(w, e, locs);
  }

  /** Resolving such a value fails. */
  lemma UnusableResolveFails(w: World, e: Value, locs: Locations)
    requires e.VHash? || e.VProc? || e.VObject? || e.VDeclContext?
    ensures Resolve(w, e, locs).Err?
  {
  }

  /** Every other value that is not an Array resolves. */
  lemma ScalarResolves(w: World, e: Value, locs: Locations)
    requires !(e.VArray? || e.VHash? || e.VProc? || e.VObject? || e.VDeclContext?)
    ensures Resolve(w, e, locs).Ok? && Resolvable(e)
  {
  }

  /** An Array resolves exactly when every item does. */
  lemma {:induction false} ResolveArraySucceedsIff(w: World, e: Value, locs: Locations)
    requires e.VArray?
    ensures Resolve(w, e, locs).Ok? <==> Resolvable(e)
    decreases e, 0
  {
    ResolveAllSucceedsIff(w, e.items, locs);
    assert Resolve(w, e, locs).Ok? <==> ResolveAll(w, e.items, locs).Ok?;
  }

  lemma {:induction false} ResolveAllSucceedsIff(w: World, items: seq<Value>, locs: Locations)
    ensures ResolveAll(w, items, locs).Ok? <==> forall i :: 0 <= i < |items| ==> Resolvable(items[i])
    decreases items, 0
  {
    if |items| > 0 {
      ResolveSucceedsIff(w, items[0], locs);
      ResolveAllSucceedsIff(w, items[1..], locs);
      assert forall i :: 1 <= i < |items| ==> items[i] == items[1..][i - 1];
    }
  }

  /** `:self` is caught before the Symbol case; every other Symbol is compared with `==`. */
  lemma SelfSymbolComesFirst(w: World, name: string, locs: Locations)
    ensures Resolve(w, VSym("self"), locs) == Ok(SelfMatcher(locs))
    ensures name != "self" ==> Resolve(w, VSym(name), locs) == Ok(ValueEqualMatcher(VSym(name), locs))
  {
  }

  /** A Hash is not an expectation; the error names its class and shows it. */
  lemma HashIsRejected(w: World, entries: seq<Entry>, locs: Locations)
    ensures Resolve(w, VHash(entries), locs)
      == Err(DeclarationError("Hash" + " cannot be usable for NeuronCheck check parameter\n  value: "
                              + Inspect(w, VHash(entries))))
  {
    assert Interp(ClassNameOf(VHash(entries))) == "Hash";
  }

  // ---------------------------------------------------------------------
  // match?
  // ---------------------------------------------------------------------

  /** `Range#include?` on an Integer range */
  predicate RangeIncludes(w: World, first: int, last: int, exclusive: bool, v: Value)
  {
    if v.VInt? then first <= v.i && (if exclusive then v.i < last else v.i <= last)
    else if v.VObject? then w.rangeCovers(first, last, exclusive, v)
    else false
  }

  /**
   * `matcher.match?(value, self_object)`.  An error can only come from a
   * keyword that resolves a nested expectation, or from `respond_to?`.
   */
  function Match(w: World, m: Matcher, value: Value, receiver: Value): (r: Result<bool>)
    ensures r.Err? ==> m.OrMatcher? || m.KeywordPluginMatcher?
    decreases MatcherRank(m), 2, 0
  {
    match m
    case SelfMatcher(_) => Ok(receiver == value)
    case ValueEqualMatcher(e, _) => Ok(e == value)
    case ObjectIdenticalMatcher(e, _) => Ok(e == value)
    case KindOfMatcher(c, _) => Ok(KindOf(w, value, c))
    case RangeMatcher(first, last, exclusive, _) => Ok(RangeIncludes(w, first, last, exclusive, value))
    case RegexpMatcher(source, _) => Ok(KindOf(w, value, StringClass) && w.regexpMatches(source, value.s))
    case OrMatcher(children, _) => MatchAny(w, children, value, receiver)
    case KeywordPluginMatcher(k, params, locs) => KeywordMatch(w, k, params, locs, value, receiver)
  }

  /** `@child_matchers.any? { |x| x.match?(value, self_object) }` */
  function MatchAny(w: World, ms: seq<Matcher>, value: Value, receiver: Value): Result<bool>
    decreases MatcherRankSum(ms), 3, |ms|
  {
    if |ms| == 0 then Ok(false)
    else
      var b :- Match(w, ms[0], value, receiver);
      if b then Ok(true) else MatchAny(w, ms[1..], value, receiver)
  }

  /** The `match?` of a keyword instance, with its API bound to the locations and the receiver. */
  function KeywordMatch(w: World, k: KeywordClass, params: seq<Value>, locs: Locations, value: Value, receiver: Value)
    : Result<bool>
    decreases 4 + ValueRankSum(params), 1, 0
  {
    match k.behaviour
    case Respondable => RespondsToAll(w, value, params)
    case AnyValue => Ok(true)
    case BlockArg =>
      assert [VClass(ProcClass), VNil][1..] == [VNil];
      assert ValueRankSum([VNil]) == 1;
      assert ValueRankSum([VClass(ProcClass), VNil]) == ValueRank(VClass(ProcClass)) + ValueRankSum([VNil]);
      assert ValueRank(VArray([VClass(ProcClass), VNil])) == 3;
      ApiMatch(w, locs, receiver, value, VArray([VClass(ProcClass), VNil]))
    case Except =>
      ParamRank(params, 0);
      var b :- ApiMatch(w, locs, receiver, value, NthParam(params, 0));
      Ok(!b)
    case ArrayOf =>
      if !KindOf(w, value, ArrayClass) then Ok(false)
      else
        ParamRank(params, 0);
        AllItemsMatch(w, locs, receiver, value.items, NthParam(params, 0))
    case HashOf =>
      if !KindOf(w, value, HashClass) then Ok(false)
      else
        TwoParamsRank(params);
        AllEntriesMatch(w, locs, receiver, value.entries, NthParam(params, 0), NthParam(params, 1))
    case Custom(id, _, _) => Ok(w.pluginMatch(id, params, value, receiver))
  }

  /** `KeywordAPI#expected_value_match?`: resolve the expectation, then match against the stored receiver. */
  function ApiMatch(w: World, locs: Locations, receiver: Value, value: Value, e: Value): Result<bool>
    decreases ValueRank(e), 4, 0
  {
    var m :- Resolve(w, e, locs);
    Match(w, m, value, receiver)
  }

  /** `items.all? { |x| api.expected_value_match?(x, e) }` */
  function AllItemsMatch(w: World, locs: Locations, receiver: Value, items: seq<Value>, e: Value): Result<bool>
    decreases ValueRank(e), 5, |items|
  {
    if |items| == 0 then Ok(true)
    else
      var b :- ApiMatch(w, locs, receiver, items[0], e);
      if !b then Ok(false) else AllItemsMatch(w, locs, receiver, items[1..], e)
  }

  /** `hash.all? { |k, v| match?(k, ke) and match?(v, ve) }` */
  function AllEntriesMatch(w: World, locs: Locations, receiver: Value, entries: seq<Entry>, ke: Value, ve: Value)
    : Result<bool>
    decreases ValueRank(ke) + ValueRank(ve), 5, |entries|
  {
    if |entries| == 0 then Ok(true)
    else
      var kb :- ApiMatch(w, locs, receiver, entries[0].key, ke);
      if !kb then Ok(false)
      else
        var vb :- ApiMatch(w, locs, receiver, entries[0].val, ve);
        if !vb then Ok(false) else AllEntriesMatch(w, locs, receiver, entries[1..], ke, ve)
  }

  /** The name a `respond_to?` argument stands for. */
  function MethodNameOf(n: Value): string
  {
    if n.VSym? then n.name else if n.VStr? then n.s else ""
  }

  /** `names.all? { |x| value.respond_to?(x) }`; a name that is neither Symbol nor String is a TypeError. */
  function RespondsToAll(w: World, value: Value, names: seq<Value>): Result<bool>
  {
    if |names| == 0 then Ok(true)
    else if !(names[0].VSym? || names[0].VStr?) then
      Err(RubyError("TypeError", Inspect(w, names[0]) + " is not a symbol nor a string"))
    else if !w.respondTo(value, MethodNameOf(names[0]), false) then Ok(false)
    else RespondsToAll(w, value, names[1..])
  }

  // ---------------------------------------------------------------------
  // Properties of matching
  // ---------------------------------------------------------------------

  /** The empty Or accepts nothing. */
  lemma EmptyOrMatchesNothing(w: World, locs: Locations, value: Value, receiver: Value)
    ensures Match(w, OrMatcher([], locs), value, receiver) == Ok(false)
  {
  }

  /** `[C, nil]` resolves to the Or of a kind-of matcher and an identity matcher. */
  lemma ClassOrNilResolves(w: World, c: ClassRef, locs: Locations)
    ensures Resolve(w, VArray([VClass(c), VNil]), locs)
         == Ok(OrMatcher([KindOfMatcher(c, locs), ObjectIdenticalMatcher(VNil, locs)], locs))
  {
    var items := [VClass(c), VNil];
    var a, b := KindOfMatcher(c, locs), ObjectIdenticalMatcher(VNil, locs);
    assert items[1..] == [VNil] && [VNil][1..] == [];
    assert Resolve(w, VNil, locs) == Ok(b);
    assert Resolve(w, VClass(c), locs) == Ok(a);
    assert ResolveAll(w, [], locs) == Ok([]);
    var r1 := ResolveAll(w, [VNil], locs);
    assert r1.Ok?;
    assert r1.value == [b] + [];
    assert [b] + [] == [b];
    assert [a] + [b] == [a, b];
    assert ResolveAll(w, items, locs) == Ok([a, b]);
  }

  /** The Or of kind-of `C` and identity with nil accepts exactly the kinds of `C` and nil. */
  lemma ClassOrNilMatches(w: World, c: ClassRef, locs: Locations, value: Value, receiver: Value)
    ensures Match(w, OrMatcher([KindOfMatcher(c, locs), ObjectIdenticalMatcher(VNil, locs)], locs), value, receiver)
         == Ok(KindOf(w, value, c) || value.VNil?)
  {
    var a, b := KindOfMatcher(c, locs), ObjectIdenticalMatcher(VNil, locs);
    MatchAnyTwo(w, a, b, value, receiver);
  }

  /** An Or of two matchers asks the second only when the first refuses. */
  lemma MatchAnyTwo(w: World, a: Matcher, b: Matcher, value: Value, receiver: Value)
    ensures MatchAny(w, [a, b], value, receiver)
         == var ra := Match(w, a, value, receiver);
            if ra.Err? then ra else if ra.value then Ok(true) else Match(w, b, value, receiver)
  {
    MatchAnyOne(w, b, value, receiver);
    assert [a, b][1..] == [b];
  }

  /** An Or of one matcher answers as that matcher. */
  lemma MatchAnyOne(w: World, m: Matcher, value: Value, receiver: Value)
    ensures MatchAny(w, [m], value, receiver) == Match(w, m, value, receiver)
  {
    assert [m][1..] == [];
  }

  /** `[String, nil]` accepts exactly the Strings and nil. */
  lemma StringOrNil(w: World, locs: Locations, value: Value, receiver: Value)
    ensures Resolve(w, VArray([VClass(StringClass), VNil]), locs).Ok?
    ensures Match(w, Resolve(w, VArray([VClass(StringClass), VNil]), locs).value, value, receiver)
         == Ok(value.VStr? || value.VNil?)
  {
    ClassOrNilResolves(w, StringClass, locs);
    ClassOrNilMatches(w, StringClass, locs, value, receiver);
  }

  /** `1..100` accepts 1 and 100 and rejects 0, 101 and the empty String. */
  lemma RangeExamples(w: World, locs: Locations, receiver: Value)
    ensures Match(w, RangeMatcher(1, 100, false, locs), VInt(1), receiver) == Ok(true)
    ensures Match(w, RangeMatcher(1, 100, false, locs), VInt(100), receiver) == Ok(true)
    ensures Match(w, RangeMatcher(1, 100, false, locs), VInt(0), receiver) == Ok(false)
    ensures Match(w, RangeMatcher(1, 100, false, locs), VInt(101), receiver) == Ok(false)
    ensures Match(w, RangeMatcher(1, 100, false, locs), VStr(""), receiver) == Ok(false)
    ensures Match(w, RangeMatcher(1, 100, true, locs), VInt(100), receiver) == Ok(false)
  {
  }

  /** A Regexp matcher never accepts a value that is not a String. */
  lemma RegexpOnlyStrings(w: World, source: string, locs: Locations, value: Value, receiver: Value)
    ensures Match(w, RegexpMatcher(source, locs), value, receiver).Ok?
    ensures Match(w, RegexpMatcher(source, locs), value, receiver).value
        <==> value.VStr? && w.regexpMatches(source, value.s)
  {
  }

  /** A Self matcher accepts exactly the receiver it is given. */
  lemma SelfMatchesReceiver(w: World, locs: Locations, value: Value, receiver: Value)
    ensures Match(w, SelfMatcher(locs), value, receiver) == Ok(value == receiver)
  {
  }

  // ---------------------------------------------------------------------
  // Captions
  // ---------------------------------------------------------------------

  /** The `@expected` a matcher's base initialiser stored; Or, Self and keyword matchers never set it. */
  function Expected(m: Matcher): Value
  {
    match m
    case ValueEqualMatcher(e, _) => e
    case ObjectIdenticalMatcher(e, _) => e
    case KindOfMatcher(c, _) => VClass(c)
    case RangeMatcher(first, last, exclusive, _) => VRange(first, last, exclusive)
    case RegexpMatcher(source, _) => VRegexp(source)
    case _ => VNil
  }

  /** `expected_caption`, the phrase after "must be" */
  function Caption(w: World, m: Matcher): (r: Result<string>)
    ensures r.Err? ==> m.OrMatcher? || m.KeywordPluginMatcher?
    ensures m.KindOfMatcher? ==> r == Ok(if m.cls.name.Some? then m.cls.name.value else "")
    decreases MatcherRank(m), 2, 0
  {
    match m
    case SelfMatcher(_) => Ok("self")
    case ValueEqualMatcher(e, _) => Ok(Inspect(w, e))
    case ObjectIdenticalMatcher(e, _) => Ok(Inspect(w, e))
    case KindOfMatcher(c, _) => Ok(Interp(c.name))
    case RangeMatcher(_, _, _, _) => Ok("included in " + Inspect(w, Expected(m)))
    case RegexpMatcher(_, _) => Ok("String that matches with " + Inspect(w, Expected(m)))
    case OrMatcher(children, _) =>
      var captions :- CaptionAll(w, children);
      OrJoinCaptions(captions)
    case KeywordPluginMatcher(k, params, locs) => KeywordCaption(w, k, params, locs)
  }

  /**
   * `expected_caption` as the value it returns: the KindOf matcher of an
   * anonymous class returns nil, every other matcher the string that
   * `Caption` interpolates.
   */
  function RawCaption(w: World, m: Matcher): (r: Result<Option<string>>)
    ensures r.Ok? <==> Caption(w, m).Ok?
    ensures r.Ok? && r.value.Some? ==> Caption(w, m) == Ok(r.value.value)
    ensures r.Ok? && r.value.None? ==> m.KindOfMatcher? && m.cls.name.None?
    decreases MatcherRank(m), 2, 1
  {
    if m.KindOfMatcher? then Ok(m.cls.name)
    else
      var c :- Caption(w, m);
      Ok(Some(c))
  }

  /** `@child_matchers.map { |x| x.expected_caption }`: every child's caption, the first failure raised */
  function CaptionAll(w: World, ms: seq<Matcher>): (r: Result<seq<Option<string>>>)
    ensures r.Ok? ==> |r.value| == |ms|
    decreases MatcherRankSum(ms), 3, |ms|
  {
    if |ms| == 0 then Ok([])
    else
      var c :- RawCaption(w, ms[0]);
      var rest :- CaptionAll(w, ms[1..]);
      Ok([c] + rest)
  }

  /** The children's captions succeed together, and each is its child's own. */
  lemma {:induction false} CaptionAllEach(w: World, ms: seq<Matcher>)
    ensures CaptionAll(w, ms).Ok? <==> forall i :: 0 <= i < |ms| ==> RawCaption(w, ms[i]).Ok?
    ensures CaptionAll(w, ms).Ok? ==> forall i :: 0 <= i < |ms| ==> CaptionAll(w, ms).value[i] == RawCaption(w, ms[i]).value
  {
    if |ms| > 0 {
      CaptionAllEach(w, ms[1..]);
      assert forall i :: 1 <= i < |ms| ==> ms[i] == ms[1..][i - 1];
    }
  }

  /**
   * The or-join over captions that may be nil: `ret << str` with a nil
   * `str` raises TypeError, so one anonymous class among the children makes
   * the whole caption fail.
   */
  function OrJoinCaptions(captions: seq<Option<string>>): (r: Result<string>)
    ensures r.Ok? <==> forall i :: 0 <= i < |captions| ==> captions[i].Some?
    ensures r.Err? ==> r.error == RubyError("TypeError", "no implicit conversion of nil into String")
    ensures r.Ok? ==> r.value == Utils.OrJoin(Present(captions))
  {
    if forall i :: 0 <= i < |captions| ==> captions[i].Some? then Ok(Utils.OrJoin(Present(captions)))
    else Err(RubyError("TypeError", "no implicit conversion of nil into String"))
  }

  /** The strings of captions that are all present, in order. */
  function Present(captions: seq<Option<string>>): (r: seq<string>)
    requires forall i :: 0 <= i < |captions| ==> captions[i].Some?
    ensures |r| == |captions| && forall i :: 0 <= i < |r| ==> r[i] == captions[i].value
  {
    if |captions| == 0 then [] else [captions[0].value] + Present(captions[1..])
  }

  /** One child for an anonymous class turns the Or caption into a TypeError, once every child's caption is computed. */
  lemma OrCaptionOfAnonymousChild(w: World, children: seq<Matcher>, locs: Locations, k: nat)
    requires k < |children| && children[k].KindOfMatcher? && children[k].cls.name.None?
    requires forall i :: 0 <= i < |children| ==> Caption(w, children[i]).Ok?
    ensures Caption(w, OrMatcher(children, locs)) == Err(RubyError("TypeError", "no implicit conversion of nil into String"))
  {
    CaptionAllEach(w, children);
    assert RawCaption(w, children[k]) == Ok(None);
  }

  /** Without anonymous classes among the children, the Or caption or-joins the children's captions in order. */
  lemma OrCaptionJoinsChildren(w: World, children: seq<Matcher>, locs: Locations)
    requires forall i :: 0 <= i < |children| ==> Caption(w, children[i]).Ok?
    requires forall i :: 0 <= i < |children| ==> !(children[i].KindOfMatcher? && children[i].cls.name.None?)
    ensures Caption(w, OrMatcher(children, locs)).Ok?
    ensures CaptionAll(w, children).Ok?
    ensures var cs := Present(CaptionAll(w, children).value);
      |cs| == |children|
      && (forall i :: 0 <= i < |children| ==> cs[i] == Caption(w, children[i]).value)
      && Caption(w, OrMatcher(children, locs)).value == Utils.OrJoin(cs)
  {
    NamedCaptionsPresent(w, children);
    assert Caption(w, OrMatcher(children, locs)) == OrJoinCaptions(CaptionAll(w, children).value);
  }

  lemma NamedCaptionsPresent(w: World, children: seq<Matcher>)
    requires forall i :: 0 <= i < |children| ==> Caption(w, children[i]).Ok?
    requires forall i :: 0 <= i < |children| ==> !(children[i].KindOfMatcher? && children[i].cls.name.None?)
    ensures CaptionAll(w, children).Ok?
    ensures forall i :: 0 <= i < |children| ==> CaptionAll(w, children).value[i] == Some(Caption(w, children[i]).value)
  {
    CaptionAllEach(w, children);
    assert forall i :: 0 <= i < |children| ==> RawCaption(w, children[i]).value.Some?;
  }

  /** `expected_short_caption`, used in signatures; by default the expectation's inspect */
  function ShortCaption(w: World, m: Matcher): (r: Result<string>)
    ensures r.Err? ==> m.OrMatcher? || m.KeywordPluginMatcher?
    ensures m.KindOfMatcher? ==> r == Ok(Inspect(w, VClass(m.cls)))
    decreases MatcherRank(m), 2, 0
  {
    match m
    case SelfMatcher(_) => Ok("self")
    case OrMatcher(children, _) =>
      var shorts :- ShortCaptionAll(w, children);
      Ok("[" + Join(shorts, ", ") + "]")
    case KeywordPluginMatcher(k, params, locs) => KeywordShortCaption(w, k, params, locs)
    case _ => Ok(Inspect(w, Expected(m)))
  }

  function ShortCaptionAll(w: World, ms: seq<Matcher>): (r: Result<seq<string>>)
    ensures r.Ok? ==> |r.value| == |ms|
    decreases MatcherRankSum(ms), 3, |ms|
  {
    if |ms| == 0 then Ok([])
    else
      var c :- ShortCaption(w, ms[0]);
      var rest :- ShortCaptionAll(w, ms[1..]);
      Ok([c] + rest)
  }

  /** The children's short captions succeed together, and each is its child's own. */
  lemma {:induction false} ShortCaptionAllEach(w: World, ms: seq<Matcher>)
    ensures ShortCaptionAll(w, ms).Ok? <==> forall i :: 0 <= i < |ms| ==> ShortCaption(w, ms[i]).Ok?
    ensures ShortCaptionAll(w, ms).Ok? ==> forall i :: 0 <= i < |ms| ==> ShortCaptionAll(w, ms).value[i] == ShortCaption(w, ms[i]).value
  {
    if |ms| > 0 {
      ShortCaptionAllEach(w, ms[1..]);
      assert forall i :: 1 <= i < |ms| ==> ms[i] == ms[1..][i - 1];
    }
  }

  /** The short caption of an Or lists its children's short captions in brackets, in order. */
  lemma OrShortCaptionLists(w: World, children: seq<Matcher>, locs: Locations)
    requires forall i :: 0 <= i < |children| ==> ShortCaption(w, children[i]).Ok?
    ensures ShortCaptionAll(w, children).Ok?
    ensures var shorts := ShortCaptionAll(w, children).value;
      |shorts| == |children|
      && (forall i :: 0 <= i < |children| ==> shorts[i] == ShortCaption(w, children[i]).value)
      && ShortCaption(w, OrMatcher(children, locs)) == Ok("[" + Join(shorts, ", ") + "]")
  {
    ShortCaptionAllEach(w, children);
  }

  /** `names.map { |x| "##{x}" }` */
  function MethodCaptions(w: World, names: seq<Value>): (r: seq<string>)
    ensures |r| == |names| && forall i :: 0 <= i < |r| ==> r[i] == "#" + ToS(w, names[i])
  {
    if |names| == 0 then [] else ["#" + ToS(w, names[0])] + MethodCaptions(w, names[1..])
  }

  /** `values.map { |x| x.inspect }` */
  function Inspections(w: World, values: seq<Value>): (r: seq<string>)
    ensures |r| == |values| && forall i :: 0 <= i < |r| ==> r[i] == Inspect(w, values[i])
  {
    if |values| == 0 then [] else [Inspect(w, values[0])] + Inspections(w, values[1..])
  }

  /** `names.map(&:to_s)`, as meta values */
  function NameStrings(w: World, names: seq<Value>): (r: seq<Json>)
    ensures |r| == |names| && forall i :: 0 <= i < |r| ==> r[i] == JValue(VStr(ToS(w, names[i])))
  {
    if |names| == 0 then [] else [JValue(VStr(ToS(w, names[0])))] + NameStrings(w, names[1..])
  }

  /** A keyword's `expected_caption`, with its API bound to the locations */
  function KeywordCaption(w: World, k: KeywordClass, params: seq<Value>, locs: Locations): Result<string>
    decreases 4 + ValueRankSum(params), 1, if k.behaviour.HashOf? then 1 else 0
  {
    match k.behaviour
    case Respondable =>
      Ok("respondable to " + Utils.OrJoin(MethodCaptions(w, params)))
    case AnyValue => Ok("any value")
    case BlockArg => Ok("block or nil")
    case Except =>
      ParamRank(params, 0);
      var c :- ApiCaption(w, locs, NthParam(params, 0));
      Ok("any value except " + c)
    case ArrayOf =>
      ParamRank(params, 0);
      var c :- ApiCaption(w, locs, NthParam(params, 0));
      Ok("array of " + c)
    case HashOf =>
      ParamRank(params, 0);
      ParamRank(params, 1);
      var kc :- ApiCaption(w, locs, NthParam(params, 0));
      var vc :- ApiCaption(w, locs, NthParam(params, 1));
      var short :- KeywordShortCaption(w, k, params, locs);
      Ok("hash that has keys of " + kc + " and values of " + vc + ", " + short)
    case Custom(id, _, _) => Ok(w.pluginCaption(id, params))
  }

  /** A keyword's `expected_short_caption`; a keyword that defines none uses its caption. */
  function KeywordShortCaption(w: World, k: KeywordClass, params: seq<Value>, locs: Locations): Result<string>
    decreases 4 + ValueRankSum(params), 1, if k.behaviour.HashOf? then 0 else 1
  {
    match k.behaviour
    case Respondable => Ok("respondable(" + Join(Inspections(w, params), ", ") + ")")
    case AnyValue => Ok("any")
    case Except =>
      ParamRank(params, 0);
      var s :- ApiShortCaption(w, locs, NthParam(params, 0));
      Ok("except(" + s + ")")
    case HashOf =>
      ParamRank(params, 0);
      ParamRank(params, 1);
      var ks :- ApiShortCaption(w, locs, NthParam(params, 0));
      var vs :- ApiShortCaption(w, locs, NthParam(params, 1));
      Ok("{" + ks + " => " + vs + "}")
    case Custom(id, definesShortCaption, _) =>
      if definesShortCaption then Ok(w.pluginShortCaption(id, params)) else KeywordCaption(w, k, params, locs)
    case _ => KeywordCaption(w, k, params, locs)
  }

  /** `KeywordAPI#get_expected_value_caption` */
  function ApiCaption(w: World, locs: Locations, e: Value): Result<string>
    decreases ValueRank(e), 4, 0
  {
    var m :- Resolve(w, e, locs);
    Caption(w, m)
  }

  /** `KeywordAPI#get_expected_value_short_caption` */
  function ApiShortCaption(w: World, locs: Locations, e: Value): Result<string>
    decreases ValueRank(e), 4, 0
  {
    var m :- Resolve(w, e, locs);
    ShortCaption(w, m)
  }

  // ---------------------------------------------------------------------
  // Meta records
  // ---------------------------------------------------------------------

  /** The last segment of the matcher's class name (NeuronCheck keeps the spelling `Mathcer`). */
  function TypeName(m: Matcher): string
  {
    match m
    case SelfMatcher(_) => "SelfMatcher"
    case ValueEqualMatcher(_, _) => "ValueEqualMatcher"
    case ObjectIdenticalMatcher(_, _) => "ObjectIdenticalMathcer"
    case KindOfMatcher(_, _) => "KindOfMatcher"
    case RangeMatcher(_, _, _, _) => "RangeMatcher"
    case RegexpMatcher(_, _) => "RegexpMatcher"
    case OrMatcher(_, _) => "OrMatcher"
    case KeywordPluginMatcher(_, _, _) => "KeywordPluginMatcher"
  }

  /** The record `MatcherBase#meta_info_as_json` builds. */
  function BaseMeta(m: Matcher): seq<Field>
  {
    [Field("type", JValue(VStr(TypeName(m)))), Field("expected", JValue(Expected(m)))]
  }

  function NameValue(name: Option<string>): Value
  {
    if name.Some? then VStr(name.value) else VNil
  }

  /** `meta_info_as_json` */
  function Meta(w: World, m: Matcher): (r: Result<Json>)
    ensures r.Ok? ==> r.value.JObject?
    ensures r.Err? ==> m.OrMatcher? || m.KeywordPluginMatcher?
    decreases MatcherRank(m), 2, 0
  {
    match m
    case KindOfMatcher(c, _) => Ok(JObject(Put(BaseMeta(m), "expected", JValue(NameValue(c.name)))))
    case OrMatcher(children, _) =>
      var metas :- MetaAll(w, children);
      Ok(JObject(Put(BaseMeta(m), "child_matchers", JList(metas))))
    case KeywordPluginMatcher(k, params, locs) =>
      var caption :- KeywordCaption(w, k, params, locs);
      var named := Put(Put(BaseMeta(m), "keyword", JValue(VStr(k.name))), "expected_caption", JValue(VStr(caption)));
      var own :- KeywordParamsJson(w, k, params, locs);
      Ok(JObject(Update(Delete(named, "expected"), own)))
    case _ => Ok(JObject(BaseMeta(m)))
  }

  function MetaAll(w: World, ms: seq<Matcher>): (r: Result<seq<Json>>)
    ensures r.Ok? ==> |r.value| == |ms|
    decreases MatcherRankSum(ms), 3, |ms|
  {
    if |ms| == 0 then Ok([])
    else
      var j :- Meta(w, ms[0]);
      var rest :- MetaAll(w, ms[1..]);
      Ok([j] + rest)
  }

  /** Every child's record, in order, once all of them can be built. */
  lemma {:induction false} MetaAllEach(w: World, ms: seq<Matcher>)
    ensures MetaAll(w, ms).Ok? <==> forall i :: 0 <= i < |ms| ==> Meta(w, ms[i]).Ok?
    ensures MetaAll(w, ms).Ok? ==> forall i :: 0 <= i < |ms| ==> MetaAll(w, ms).value[i] == Meta(w, ms[i]).value
  {
    if |ms| > 0 {
      MetaAllEach(w, ms[1..]);
      assert forall i :: 1 <= i < |ms| ==> ms[i] == ms[1..][i - 1];
    }
  }

  /** The record of an Or lists its children's records under `child_matchers`, after its own type and nil expectation. */
  lemma OrMetaListsChildren(w: World, children: seq<Matcher>, locs: Locations)
    requires forall i :: 0 <= i < |children| ==> Meta(w, children[i]).Ok?
    ensures Meta(w, OrMatcher(children, locs)).Ok? && Meta(w, OrMatcher(children, locs)).value.JObject?
    ensures var fields := Meta(w, OrMatcher(children, locs)).value.fields;
      Lookup(fields, "type") == Some(JValue(VStr("OrMatcher")))
      && Lookup(fields, "expected") == Some(JValue(VNil))
      && Lookup(fields, "child_matchers").Some? && Lookup(fields, "child_matchers").value.JList?
      && var listed := Lookup(fields, "child_matchers").value.items;
        |listed| == |children| && forall i :: 0 <= i < |children| ==> listed[i] == Meta(w, children[i]).value
  {
    MetaAllEach(w, children);
    var metas := MetaAll(w, children).value;
    var base := BaseMeta(OrMatcher(children, locs));
    PutNewKeyAppends(base, "child_matchers", JList(metas));
    var fields := base + [Field("child_matchers", JList(metas))];
    assert Meta(w, OrMatcher(children, locs)) == Ok(JObject(fields));
    assert base == [Field("type", JValue(VStr("OrMatcher"))), Field("expected", JValue(VNil))];
    assert fields == [Field("type", JValue(VStr("OrMatcher"))), Field("expected", JValue(VNil)), Field("child_matchers", JList(metas))];
    LookupThree(Field("type", JValue(VStr("OrMatcher"))), Field("expected", JValue(VNil)), Field("child_matchers", JList(metas)));
  }

  /** The record of a kind-of matcher gives the class's name as its expectation, nil for an anonymous class. */
  lemma KindOfMetaNamesClass(w: World, c: ClassRef, locs: Locations)
    ensures Meta(w, KindOfMatcher(c, locs)).Ok?
    ensures var fields := Meta(w, KindOfMatcher(c, locs)).value.fields;
      Lookup(fields, "type") == Some(JValue(VStr("KindOfMatcher")))
      && Lookup(fields, "expected") == Some(JValue(if c.name.Some? then VStr(c.name.value) else VNil))
  {
    var base := BaseMeta(KindOfMatcher(c, locs));
    assert base[1..] == [Field("expected", JValue(VClass(c)))];
    assert Put(base[1..], "expected", JValue(NameValue(c.name))) == [Field("expected", JValue(NameValue(c.name)))];
  }

  /**
   * A keyword's record drops its `expected` and adds the keyword's own
   * parameters: it has an `expected` exactly when those parameters have one.
   */
  lemma KeywordMetaExpected(w: World, k: KeywordClass, params: seq<Value>, locs: Locations)
    requires Meta(w, KeywordPluginMatcher(k, params, locs)).Ok?
    ensures KeywordParamsJson(w, k, params, locs).Ok?
    ensures var own := KeywordParamsJson(w, k, params, locs).value;
      (forall i :: 0 <= i < |own| ==> own[i].key != "expected") ==>
        Lookup(Meta(w, KeywordPluginMatcher(k, params, locs)).value.fields, "expected") == None
    ensures k.behaviour.Respondable? ==>
      Lookup(Meta(w, KeywordPluginMatcher(k, params, locs)).value.fields, "expected") == Some(JList(NameStrings(w, params)))
  {
    var m := KeywordPluginMatcher(k, params, locs);
    var caption := KeywordCaption(w, k, params, locs).value;
    var named := Put(Put(BaseMeta(m), "keyword", JValue(VStr(k.name))), "expected_caption", JValue(VStr(caption)));
    var own := KeywordParamsJson(w, k, params, locs).value;
    assert Meta(w, m).value.fields == Update(Delete(named, "expected"), own);
    DeleteThenLookup(named, "expected");
    if forall i :: 0 <= i < |own| ==> own[i].key != "expected" {
      UpdateKeepsOthers(Delete(named, "expected"), own, "expected");
    }
    if k.behaviour.Respondable? {
      assert own == [Field("expected", JList(NameStrings(w, params)))];
      assert Update(Delete(named, "expected"), own) == Put(Delete(named, "expected"), "expected", JList(NameStrings(w, params)));
      PutThenLookup(Delete(named, "expected"), "expected", JList(NameStrings(w, params)), "expected");
    }
  }

  /** A keyword's `get_params_as_json`; a keyword that defines none gives `{}`. */
  function KeywordParamsJson(w: World, k: KeywordClass, params: seq<Value>, locs: Locations): Result<seq<Field>>
    decreases 4 + ValueRankSum(params), 0, 0
  {
    match k.behaviour
    case Respondable =>
      Ok([Field("expected", JList(NameStrings(w, params)))])
    case Except =>
      ParamRank(params, 0);
      var t :- ApiMeta(w, locs, NthParam(params, 0));
      Ok([Field("target", t)])
    case ArrayOf =>
      ParamRank(params, 0);
      var t :- ApiMeta(w, locs, NthParam(params, 0));
      Ok([Field("item", t)])
    case HashOf =>
      ParamRank(params, 0);
      ParamRank(params, 1);
      var kj :- ApiMeta(w, locs, NthParam(params, 0));
      var vj :- ApiMeta(w, locs, NthParam(params, 1));
      Ok([Field("key", kj), Field("value", vj)])
    case Custom(id, _, definesParamsJson) => Ok(if definesParamsJson then w.pluginParamsJson(id, params) else [])
    case _ => Ok([])
  }

  /** `KeywordAPI#get_expected_value_meta_info_as_json` */
  function ApiMeta(w: World, locs: Locations, e: Value): Result<Json>
    decreases ValueRank(e), 4, 0
  {
    var m :- Resolve(w, e, locs);
    Meta(w, m)
  }

  // ---------------------------------------------------------------------
  // get_error_message
  // ---------------------------------------------------------------------

  /**
   * The "declared at:" block: one location per line, aligned under the
   * first, and nothing at all when there are no locations.
   */
  function DeclaredAtBlock(locations: Locations): (r: string)
    ensures r == "" <==> |locations| == 0
    ensures |locations| > 0 ==> "  declared at: " + locations[0] <= r && r[|r| - 2..] == "\n\n"
  {
    var captions := Utils.BacktraceLocationsToCaptions(locations);
    if |captions| >= 1 then
      InterleaveStartsWithFirst(captions, Repeat("\n" + Spaces(15), |captions| - 1));
      "  declared at: " + Join(captions, "\n" + Spaces(15)) + "\n\n"
    else ""
  }

  /**
   * The first line of a violation message: what the value must be and how
   * it was refused, with its inspect cut to at most 40 characters.
   */
  function ExpectationLine(contextCaption: string, caption: string, phraseAfterBut: string, shown: string): (r: string)
    ensures contextCaption + " must be " + caption + ", but " + phraseAfterBut + " " <= r
    ensures |r| <= |contextCaption + " must be " + caption + ", but " + phraseAfterBut + " "| + 41 && r[|r| - 1] == '\n'
    ensures |shown| <= 40 <==> r == contextCaption + " must be " + caption + ", but " + phraseAfterBut + " " + shown + "\n"
  {
    var head := contextCaption + " must be " + caption + ", but " + phraseAfterBut + " ";
    var cut := Utils.Truncate(shown, 40, "...");
    Utils.TruncateWithinLimit(shown, 40, "...");
    assert |shown| > 40 ==> head + cut + "\n" != head + shown + "\n" by {
      if |shown| > 40 {
        assert |head + cut + "\n"| < |head + shown + "\n"|;
      }
    }
    head + cut + "\n"
  }

  /** The second line: the value's full inspect, however long. */
  function GotLine(shown: string): (r: string)
    ensures |r| == 16 + |shown| && r[15..|r| - 1] == shown && r[..15] == "          got: "
  {
    "          got: " + shown + "\n"
  }

  /** The signature line, present only for a declaration bound to a method. */
  function SignatureLine(signature: Option<Result<string>>): (r: Result<string>)
    ensures r.Err? <==> signature.Some? && signature.value.Err?
    ensures r.Ok? ==> (r.value == "" <==> signature.None?)
    ensures r.Ok? && signature.Some? ==> r.value == "    signature: " + signature.value.value + "\n"
  {
    match signature
    case None => Ok("")
    case Some(Ok(s)) => Ok("    signature: " + s + "\n")
    case Some(Err(e)) => Err(e)
  }

  /**
   * `get_error_message(signature_decl, context_caption, value, phrase_after_but:)`.
   * `signature` is the signature caption of the declaration when it is
   * bound to a method.  Building the caption can fail (a keyword's nested
   * expectation, an Or with an anonymous class); so can the signature.
   */
  function ErrorMessage(w: World, m: Matcher, signature: Option<Result<string>>, contextCaption: string, value: Value,
                        phraseAfterBut: string): (r: Result<string>)
    ensures r.Ok? <==> Caption(w, m).Ok? && SignatureLine(signature).Ok?
    ensures r.Err? ==> r.error == if Caption(w, m).Err? then Caption(w, m).error else SignatureLine(signature).error
  {
    var caption :- Caption(w, m);
    var sig :- SignatureLine(signature);
    Ok(MessageText(contextCaption, caption, phraseAfterBut, Inspect(w, value), sig, m.locations))
  }

  /** The lines of a violation message, in order. */
  function MessageText(contextCaption: string, caption: string, phraseAfterBut: string, shown: string, sigLine: string,
                       locations: Locations): string
  {
    ExpectationLine(contextCaption, caption, phraseAfterBut, shown) + GotLine(shown) + sigLine + DeclaredAtBlock(locations)
  }

  /** Where the three parts of a concatenation sit in it. */
  lemma ThreePartLayout(a: string, b: string, c: string)
    ensures a <= a + b + c && a + b <= a + b + c
    ensures |c| <= |a + b + c| && (a + b + c)[|a + b + c| - |c|..] == c
  {
    assert a + b + c == a + (b + c);
    PrefixOfConcat(a, b + c);
    PrefixOfConcat(a + b, c);
    SuffixOfConcat(a + b, c);
  }

  /** The layout of the message text, line by line. */
  lemma MessageTextLayout(contextCaption: string, caption: string, phraseAfterBut: string, shown: string,
                          signature: Option<Result<string>>, locations: Locations)
    requires SignatureLine(signature).Ok?
    ensures var msg := MessageText(contextCaption, caption, phraseAfterBut, shown, SignatureLine(signature).value, locations);
      var lines := ExpectationLine(contextCaption, caption, phraseAfterBut, shown) + GotLine(shown);
      lines <= msg
      && (signature.None? ==> msg == lines + DeclaredAtBlock(locations))
      && (signature.Some? ==> lines + "    signature: " + signature.value.value + "\n" <= msg)
      && |DeclaredAtBlock(locations)| <= |msg| && msg[|msg| - |DeclaredAtBlock(locations)|..] == DeclaredAtBlock(locations)
  {
    var lines := ExpectationLine(contextCaption, caption, phraseAfterBut, shown) + GotLine(shown);
    var sig := SignatureLine(signature).value;
    assert MessageText(contextCaption, caption, phraseAfterBut, shown, sig, locations) == lines + sig + DeclaredAtBlock(locations);
    PartsLayout(lines, sig, DeclaredAtBlock(locations), if signature.Some? then Some(signature.value.value) else None);
  }

  /** The layout of lines, an optional signature line and a closing block. */
  lemma PartsLayout(lines: string, sig: string, block: string, sigText: Option<string>)
    requires sig == if sigText.Some? then "    signature: " + sigText.value + "\n" else ""
    ensures lines <= lines + sig + block
    ensures sigText.None? ==> lines + sig + block == lines + block
    ensures sigText.Some? ==> lines + "    signature: " + sigText.value + "\n" <= lines + sig + block
    ensures |block| <= |lines + sig + block| && (lines + sig + block)[|lines + sig + block| - |block|..] == block
  {
    ThreePartLayout(lines, sig, block);
    if sigText.Some? {
      assert lines + "    signature: " + sigText.value + "\n" == lines + sig;
    } else {
      assert lines + sig == lines;
    }
  }

  /**
   * How a violation message is laid out: the expectation line and the got
   * line; then the signature line exactly when there is a signature; and
   * it ends with the declared-at block, which is empty exactly when the
   * matcher has no locations.
   */
  lemma ErrorMessageLayout(w: World, m: Matcher, signature: Option<Result<string>>, contextCaption: string, value: Value,
                           phraseAfterBut: string)
    requires ErrorMessage(w, m, signature, contextCaption, value, phraseAfterBut).Ok?
    ensures var msg := ErrorMessage(w, m, signature, contextCaption, value, phraseAfterBut).value;
      var lines := ExpectationLine(contextCaption, Caption(w, m).value, phraseAfterBut, Inspect(w, value)) + GotLine(Inspect(w, value));
      lines <= msg
      && (signature.None? ==> msg == lines + DeclaredAtBlock(m.locations))
      && (signature.Some? ==> lines + "    signature: " + signature.value.value + "\n" <= msg)
      && |DeclaredAtBlock(m.locations)| <= |msg| && msg[|msg| - |DeclaredAtBlock(m.locations)|..] == DeclaredAtBlock(m.locations)
  {
    MessageTextLayout(contextCaption, Caption(w, m).value, phraseAfterBut, Inspect(w, value), signature, m.locations);
  }

  /** The message of an attribute writer that was given 1 for a `val String` attribute. */
  lemma AttributeMessageExample(w: World)
    ensures ErrorMessage(w, KindOfMatcher(StringClass, ["script.rb:7:in `block in <class:Foo>'"]), None,
                         "value of attribute `Foo#name2'", VInt(1), "set")
         == Ok("value of attribute `Foo#name2'" + " must be " + "String" + ", but " + "set" + " " + "1" + "\n"
               + "          got: " + "1" + "\n"
               + "  declared at: " + "script.rb:7:in `block in <class:Foo>'" + "\n\n")
  {
    var loc := "script.rb:7:in `block in <class:Foo>'";
    assert Inspect(w, VInt(1)) == "1";
    assert Caption(w, KindOfMatcher(StringClass, [loc])) == Ok("String");
    AttributeMessageText(loc);
  }

  lemma AttributeMessageText(loc: string)
    ensures MessageText("value of attribute `Foo#name2'", "String", "set", "1", "", [loc])
         == "value of attribute `Foo#name2'" + " must be " + "String" + ", but " + "set" + " " + "1" + "\n"
            + "          got: " + "1" + "\n"
            + "  declared at: " + loc + "\n\n"
  {
    assert Utils.BacktraceLocationsToCaptions([loc]) == [loc];
    JoinSingle(loc, "\n" + Spaces(15));
    assert DeclaredAtBlock([loc]) == "  declared at: " + loc + "\n\n";
    var head := "value of attribute `Foo#name2'" + " must be " + "String" + ", but " + "set" + " " + "1" + "\n"
                + "          got: " + "1" + "\n";
    assert ExpectationLine("value of attribute `Foo#name2'", "String", "set", "1") + GotLine("1") == head;
    assert head + "" == head;
    assert head + ("  declared at: " + loc + "\n\n") == head + "  declared at: " + loc + "\n\n";
  }
}
