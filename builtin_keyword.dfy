/**
 * The keywords NeuronCheck registers for itself when it loads: `respondable`
 * (and its alias `res`), `any`, `block`, `except`, `array_of` and
 * `hash_of`.  Their behaviour is the `Behaviour` the matcher functions
 * interpret; this module states what each one accepts and how it reads.
 */
module BuiltinKeywords {
  import opened Errors
  import opened Values
  import opened Matchers
  import opened Plugin
  import Utils

  const RespondableBody := KeywordBody(true, true, true, Respondable, true, AnyArity)
  const AnyBody := KeywordBody(true, true, true, AnyValue, true, Exactly(0))
  const BlockBody := KeywordBody(true, true, true, BlockArg, true, Exactly(0))
  const ExceptBody := KeywordBody(true, true, true, Except, true, Exactly(1))
  const ArrayOfBody := KeywordBody(true, true, true, ArrayOf, true, Exactly(1))
  const HashOfBody := KeywordBody(true, true, true, HashOf, true, Exactly(2))

  const RespondableKeyword := KeywordClassOf("respondable", RespondableBody)
  const AnyKeyword := KeywordClassOf("any", AnyBody)
  const BlockKeyword := KeywordClassOf("block", BlockBody)
  const ExceptKeyword := KeywordClassOf("except", ExceptBody)
  const ArrayOfKeyword := KeywordClassOf("array_of", ArrayOfBody)
  const HashOfKeyword := KeywordClassOf("hash_of", HashOfBody)

  /** The registrations of the built-in keywords, in order, applied to a table. */
  function RegisterBuiltins(t: Table): Result<Table>
  {
    var t1 :- AddKeyword(t, "respondable", RespondableBody);
    var t2 :- AliasKeyword(t1, "res", "respondable");
    var t3 :- AddKeyword(t2, "any", AnyBody);
    var t4 :- AddKeyword(t3, "block", BlockBody);
    var t5 :- AddKeyword(t4, "except", ExceptBody);
    var t6 :- AddKeyword(t5, "array_of", ArrayOfBody);
    AddKeyword(t6, "hash_of", HashOfBody)
  }

  const BuiltinNames: set<string> := {"respondable", "res", "any", "block", "except", "array_of", "hash_of"}

  /** The table once `respondable` and its alias `res` are registered. */
  const RespondableTable: Table := map["respondable" := RespondableKeyword, "res" := RespondableKeyword.(name := "res")]

  /** The table once `any` and `block` are registered as well. */
  const BlockTable: Table := RespondableTable["any" := AnyKeyword]["block" := BlockKeyword]

  /** The table the registrations build from the empty one. */
  const BuiltinTable: Table := BlockTable["except" := ExceptKeyword]["array_of" := ArrayOfKeyword]["hash_of" := HashOfKeyword]

  /** Each registration succeeds on what the earlier ones built. */
  lemma RegisterBuiltinsSteps()
    ensures RegisterBuiltins(map[]) == Ok(BuiltinTable)
  {
    RegisterRespondable();
    RegisterAnyAndBlock();
    RegisterTheRest();
  }

  /** `respondable`, then its alias `res`. */
  lemma RegisterRespondable()
    ensures AddKeyword(map[], "respondable", RespondableBody) == Ok(map["respondable" := RespondableKeyword])
    ensures AliasKeyword(map["respondable" := RespondableKeyword], "res", "respondable") == Ok(RespondableTable)
  {
  }

  /** `any`, then `block`. */
  lemma RegisterAnyAndBlock()
    ensures AddKeyword(RespondableTable, "any", AnyBody) == Ok(RespondableTable["any" := AnyKeyword])
    ensures AddKeyword(RespondableTable["any" := AnyKeyword], "block", BlockBody) == Ok(BlockTable)
  {
  }

  /** `except`, `array_of`, then `hash_of`. */
  lemma RegisterTheRest()
    ensures AddKeyword(BlockTable, "except", ExceptBody) == Ok(BlockTable["except" := ExceptKeyword])
    ensures AddKeyword(BlockTable["except" := ExceptKeyword], "array_of", ArrayOfBody)
         == Ok(BlockTable["except" := ExceptKeyword]["array_of" := ArrayOfKeyword])
    ensures AddKeyword(BlockTable["except" := ExceptKeyword]["array_of" := ArrayOfKeyword], "hash_of", HashOfBody)
         == Ok(BuiltinTable)
  {
  }

  /** Loaded into the empty table, the built-ins all register, and all of them are built in. */
  lemma BuiltinTableContents()
    ensures RegisterBuiltins(map[]).Ok?
    ensures RegisterBuiltins(map[]).value.Keys == BuiltinNames
    ensures forall n :: n in RegisterBuiltins(map[]).value ==> RegisterBuiltins(map[]).value[n].builtin
    ensures RegisterBuiltins(map[]).value["res"] == RespondableKeyword.(name := "res")
    ensures RegisterBuiltins(map[]).value["array_of"] == ArrayOfKeyword
  {
    RegisterBuiltinsSteps();
    assert BuiltinTable.Keys == BuiltinNames;
  }

  /** Every built-in keyword, the alias `res` included, refuses removal. */
  lemma BuiltinsCannotBeRemoved(name: string)
    requires name in BuiltinNames
    ensures RegisterBuiltins(map[]).Ok?
    ensures RemoveKeyword(RegisterBuiltins(map[]).value, name) == Err(BuiltinNotRemovable(name))
  {
    BuiltinTableContents();
  }

  /** `array_of` is taken: adding it again fails whatever the body. */
  lemma ArrayOfCannotBeAddedAgain(body: KeywordBody)
    ensures RegisterBuiltins(map[]).Ok?
    ensures AddKeyword(RegisterBuiltins(map[]).value, "array_of", body) == Err(AlreadyReserved("array_of"))
  {
    BuiltinTableContents();
  }

  /** Loading `builtin_keyword.rb` into the fresh registry. */
  method LoadBuiltins(reg: KeywordRegistry)
    requires reg.Valid() && reg.classes == map[]
    modifies reg
    ensures reg.Valid()
    ensures RegisterBuiltins(map[]).Ok? && reg.classes == RegisterBuiltins(map[]).value
  {
    BuiltinTableContents();
    var o := reg.Add("respondable", RespondableBody);
    o := reg.Alias("res", "respondable");
    o := reg.Add("any", AnyBody);
    o := reg.Add("block", BlockBody);
    o := reg.Add("except", ExceptBody);
    o := reg.Add("array_of", ArrayOfBody);
    o := reg.Add("hash_of", HashOfBody);
  }

  // ---------------------------------------------------------------------
  // any, block, except
  // ---------------------------------------------------------------------

  /** `any` accepts every value; it reads "any value", and "any" in a signature. */
  lemma AnyAcceptsEverything(w: World, locs: Locations, value: Value, receiver: Value)
    ensures Match(w, KeywordPluginMatcher(AnyKeyword, [], locs), value, receiver) == Ok(true)
    ensures Caption(w, KeywordPluginMatcher(AnyKeyword, [], locs)) == Ok("any value")
    ensures ShortCaption(w, KeywordPluginMatcher(AnyKeyword, [], locs)) == Ok("any")
  {
  }

  /** `block` accepts exactly a Proc or nil, as `[Proc, nil]` does. */
  lemma BlockAcceptsProcOrNil(w: World, locs: Locations, value: Value, receiver: Value)
    ensures Match(w, KeywordPluginMatcher(BlockKeyword, [], locs), value, receiver) == Ok(value.VProc? || value.VNil?)
    ensures Caption(w, KeywordPluginMatcher(BlockKeyword, [], locs)) == Ok("block or nil")
    ensures ShortCaption(w, KeywordPluginMatcher(BlockKeyword, [], locs)) == Ok("block or nil")
  {
    ClassOrNilResolves(w, ProcClass, locs);
    ClassOrNilMatches(w, ProcClass, locs, value, receiver);
  }

  /**
   * `except(x)` accepts exactly what `x` rejects, and fails as `x` fails;
   * it reads "any value except <x>" and "except(<x short>)".
   */
  lemma ExceptNegates(w: World, x: Value, locs: Locations, value: Value, receiver: Value)
    ensures var r := ApiMatch(w, locs, receiver, value, x);
      Match(w, KeywordPluginMatcher(ExceptKeyword, [x], locs), value, receiver)
        == if r.Ok? then Ok(!r.value) else Err(r.error)
    ensures var c := ApiCaption(w, locs, x);
      Caption(w, KeywordPluginMatcher(ExceptKeyword, [x], locs))
        == if c.Ok? then Ok("any value except " + c.value) else Err(c.error)
    ensures var s := ApiShortCaption(w, locs, x);
      ShortCaption(w, KeywordPluginMatcher(ExceptKeyword, [x], locs))
        == if s.Ok? then Ok("except(" + s.value + ")") else Err(s.error)
  {
    ExceptMatch(w, x, locs, value, receiver);
    ExceptCaption(w, x, locs);
    ExceptShortCaption(w, x, locs);
  }

  /** `except(x)` answers the negation of `x`'s answer. */
  lemma ExceptMatch(w: World, x: Value, locs: Locations, value: Value, receiver: Value)
    ensures var r := ApiMatch(w, locs, receiver, value, x);
      Match(w, KeywordPluginMatcher(ExceptKeyword, [x], locs), value, receiver)
        == if r.Ok? then Ok(!r.value) else Err(r.error)
  {
    assert NthParam([x], 0) == x;
  }

  /** `except(x)` reads "any value except <x>". */
  lemma ExceptCaption(w: World, x: Value, locs: Locations)
    ensures var c := ApiCaption(w, locs, x);
      Caption(w, KeywordPluginMatcher(ExceptKeyword, [x], locs))
        == if c.Ok? then Ok("any value except " + c.value) else Err(c.error)
  {
    assert NthParam([x], 0) == x;
  }

  /** `except(x)` reads "except(<x short>)" in a signature. */
  lemma ExceptShortCaption(w: World, x: Value, locs: Locations)
    ensures var s := ApiShortCaption(w, locs, x);
      ShortCaption(w, KeywordPluginMatcher(ExceptKeyword, [x], locs))
        == if s.Ok? then Ok("except(" + s.value + ")") else Err(s.error)
  {
    assert NthParam([x], 0) == x;
  }

  // ---------------------------------------------------------------------
  // array_of
  // ---------------------------------------------------------------------

  /** Every item matches `e`. */
  predicate EveryItemMatches(w: World, locs: Locations, receiver: Value, items: seq<Value>, e: Value)
  {
    forall i :: 0 <= i < |items| ==> ApiMatch(w, locs, receiver, items[i], e) == Ok(true)
  }

  /** The first item matches and so do the rest: every item matches. */
  lemma EveryItemMatchesCons(w: World, locs: Locations, receiver: Value, items: seq<Value>, e: Value)
    requires |items| > 0 && ApiMatch(w, locs, receiver, items[0], e) == Ok(true)
    requires EveryItemMatches(w, locs, receiver, items[1..], e)
    ensures EveryItemMatches(w, locs, receiver, items, e)
  {
    forall i | 1 <= i < |items|
      ensures ApiMatch(w, locs, receiver, items[i], e) == Ok(true)
    {
      assert items[i] == items[1..][i - 1];
    }
  }

  /** Every item matches: so do the rest. */
  lemma EveryItemMatchesTail(w: World, locs: Locations, receiver: Value, items: seq<Value>, e: Value)
    requires |items| > 0 && EveryItemMatches(w, locs, receiver, items, e)
    ensures EveryItemMatches(w, locs, receiver, items[1..], e)
  {
    var tail := items[1..];
    forall i | 0 <= i < |tail|
      ensures ApiMatch(w, locs, receiver, tail[i], e) == Ok(true)
    {
      assert tail[i] == items[i + 1];
    }
  }

  /** Every item can be asked: so can the rest. */
  lemma EveryItemAnswersTail(w: World, locs: Locations, receiver: Value, items: seq<Value>, e: Value)
    requires |items| > 0 && forall i :: 0 <= i < |items| ==> ApiMatch(w, locs, receiver, items[i], e).Ok?
    ensures forall i :: 0 <= i < |items| - 1 ==> ApiMatch(w, locs, receiver, items[1..][i], e).Ok?
  {
    var tail := items[1..];
    forall i | 0 <= i < |tail|
      ensures ApiMatch(w, locs, receiver, tail[i], e).Ok?
    {
      assert tail[i] == items[i + 1];
    }
  }

  /** The items' `all?` accepts exactly when every item matches, once every item can be asked. */
  lemma {:induction false} AllItemsMatchIff(w: World, locs: Locations, receiver: Value, items: seq<Value>, e: Value)
    requires forall i :: 0 <= i < |items| ==> ApiMatch(w, locs, receiver, items[i], e).Ok?
    ensures AllItemsMatch(w, locs, receiver, items, e) == Ok(EveryItemMatches(w, locs, receiver, items, e))
  {
    if |items| == 0 {
      return;
    }
    EveryItemAnswersTail(w, locs, receiver, items, e);
    AllItemsMatchIff(w, locs, receiver, items[1..], e);
    AllItemsMatchStep(w, locs, receiver, items, e);
  }

  /** One step of the items' `all?`: the first item, then the rest. */
  lemma AllItemsMatchStep(w: World, locs: Locations, receiver: Value, items: seq<Value>, e: Value)
    requires |items| > 0 && ApiMatch(w, locs, receiver, items[0], e).Ok?
    requires AllItemsMatch(w, locs, receiver, items[1..], e) == Ok(EveryItemMatches(w, locs, receiver, items[1..], e))
    ensures AllItemsMatch(w, locs, receiver, items, e) == Ok(EveryItemMatches(w, locs, receiver, items, e))
  {
    var first := ApiMatch(w, locs, receiver, items[0], e);
    if first.value {
      assert first == Ok(true);
      EveryItemMatchesFirstAccepts(w, locs, receiver, items, e);
      assert AllItemsMatch(w, locs, receiver, items, e) == AllItemsMatch(w, locs, receiver, items[1..], e);
    } else {
      assert first == Ok(false);
      assert AllItemsMatch(w, locs, receiver, items, e) == Ok(false);
      assert !EveryItemMatches(w, locs, receiver, items, e);
    }
  }

  /** A first item that matches leaves "every item matches" to the rest. */
  lemma EveryItemMatchesFirstAccepts(w: World, locs: Locations, receiver: Value, items: seq<Value>, e: Value)
    requires |items| > 0 && ApiMatch(w, locs, receiver, items[0], e) == Ok(true)
    ensures EveryItemMatches(w, locs, receiver, items, e) == EveryItemMatches(w, locs, receiver, items[1..], e)
  {
    if EveryItemMatches(w, locs, receiver, items[1..], e) {
      EveryItemMatchesCons(w, locs, receiver, items, e);
    }
    if EveryItemMatches(w, locs, receiver, items, e) {
      EveryItemMatchesTail(w, locs, receiver, items, e);
    }
  }

  /** `array_of(e)` rejects every non-Array, accepts `[]`, and accepts an Array exactly when every item matches. */
  lemma ArrayOfAccepts(w: World, e: Value, locs: Locations, value: Value, receiver: Value)
    requires value.VArray? ==> forall i :: 0 <= i < |value.items| ==> ApiMatch(w, locs, receiver, value.items[i], e).Ok?
    ensures !value.VArray? ==> Match(w, KeywordPluginMatcher(ArrayOfKeyword, [e], locs), value, receiver) == Ok(false)
    ensures value == VArray([]) ==> Match(w, KeywordPluginMatcher(ArrayOfKeyword, [e], locs), value, receiver) == Ok(true)
    ensures value.VArray? ==> Match(w, KeywordPluginMatcher(ArrayOfKeyword, [e], locs), value, receiver)
                               == Ok(EveryItemMatches(w, locs, receiver, value.items, e))
  {
    assert NthParam([e], 0) == e;
    if value.VArray? {
      AllItemsMatchIff(w, locs, receiver, value.items, e);
    }
  }

  /** `array_of(e)` reads "array of <e>" and has no short caption of its own. */
  lemma ArrayOfCaption(w: World, e: Value, locs: Locations)
    ensures var c := ApiCaption(w, locs, e);
      Caption(w, KeywordPluginMatcher(ArrayOfKeyword, [e], locs)) == if c.Ok? then Ok("array of " + c.value) else Err(c.error)
    ensures ShortCaption(w, KeywordPluginMatcher(ArrayOfKeyword, [e], locs)) == Caption(w, KeywordPluginMatcher(ArrayOfKeyword, [e], locs))
  {
    assert NthParam([e], 0) == e;
  }

  // ---------------------------------------------------------------------
  // hash_of
  // ---------------------------------------------------------------------

  /** Every key matches `ke` and every value matches `ve`. */
  predicate EveryEntryMatches(w: World, locs: Locations, receiver: Value, entries: seq<Entry>, ke: Value, ve: Value)
  {
    forall i :: 0 <= i < |entries| ==>
      ApiMatch(w, locs, receiver, entries[i].key, ke) == Ok(true) && ApiMatch(w, locs, receiver, entries[i].val, ve) == Ok(true)
  }

  /** Every key and every value can be asked. */
  predicate EveryEntryAnswers(w: World, locs: Locations, receiver: Value, entries: seq<Entry>, ke: Value, ve: Value)
  {
    forall i :: 0 <= i < |entries| ==>
      ApiMatch(w, locs, receiver, entries[i].key, ke).Ok? && ApiMatch(w, locs, receiver, entries[i].val, ve).Ok?
  }

  /** The first entry matches and so do the rest: every entry matches. */
  lemma EveryEntryMatchesCons(w: World, locs: Locations, receiver: Value, entries: seq<Entry>, ke: Value, ve: Value)
    requires |entries| > 0
    requires ApiMatch(w, locs, receiver, entries[0].key, ke) == Ok(true) && ApiMatch(w, locs, receiver, entries[0].val, ve) == Ok(true)
    requires EveryEntryMatches(w, locs, receiver, entries[1..], ke, ve)
    ensures EveryEntryMatches(w, locs, receiver, entries, ke, ve)
  {
    forall i | 1 <= i < |entries|
      ensures ApiMatch(w, locs, receiver, entries[i].key, ke) == Ok(true) && ApiMatch(w, locs, receiver, entries[i].val, ve) == Ok(true)
    {
      assert entries[i] == entries[1..][i - 1];
    }
  }

  /** Every entry matches: so do the rest. */
  lemma EveryEntryMatchesTail(w: World, locs: Locations, receiver: Value, entries: seq<Entry>, ke: Value, ve: Value)
    requires |entries| > 0 && EveryEntryMatches(w, locs, receiver, entries, ke, ve)
    ensures EveryEntryMatches(w, locs, receiver, entries[1..], ke, ve)
  {
    var tail := entries[1..];
    assert forall i :: 0 <= i < |tail| ==> tail[i] == entries[i + 1];
    forall i | 0 <= i < |tail|
      ensures ApiMatch(w, locs, receiver, tail[i].key, ke) == Ok(true)
    {
      assert tail[i].key == entries[i + 1].key;
    }
    forall i | 0 <= i < |tail|
      ensures ApiMatch(w, locs, receiver, tail[i].val, ve) == Ok(true)
    {
      assert tail[i].val == entries[i + 1].val;
    }
  }

  /** Every entry can be asked: so can the rest. */
  lemma EveryEntryAnswersTail(w: World, locs: Locations, receiver: Value, entries: seq<Entry>, ke: Value, ve: Value)
    requires |entries| > 0 && EveryEntryAnswers(w, locs, receiver, entries, ke, ve)
    ensures EveryEntryAnswers(w, locs, receiver, entries[1..], ke, ve)
  {
    var tail := entries[1..];
    forall i | 0 <= i < |tail|
      ensures ApiMatch(w, locs, receiver, tail[i].key, ke).Ok? && ApiMatch(w, locs, receiver, tail[i].val, ve).Ok?
    {
      assert tail[i] == entries[i + 1];
    }
  }

  /** One step of the entries' `all?` once the first key and value have answered. */
  lemma AllEntriesMatchStep(w: World, locs: Locations, receiver: Value, entries: seq<Entry>, ke: Value, ve: Value)
    requires |entries| > 0
    requires ApiMatch(w, locs, receiver, entries[0].key, ke).Ok? && ApiMatch(w, locs, receiver, entries[0].val, ve).Ok?
    ensures AllEntriesMatch(w, locs, receiver, entries, ke, ve)
         == if ApiMatch(w, locs, receiver, entries[0].key, ke) == Ok(true) && ApiMatch(w, locs, receiver, entries[0].val, ve) == Ok(true)
            then AllEntriesMatch(w, locs, receiver, entries[1..], ke, ve)
            else Ok(false)
  {
  }

  /** The entries' `all?` accepts exactly when every entry matches, once every key and value can be asked. */
  lemma {:induction false} AllEntriesMatchIff(w: World, locs: Locations, receiver: Value, entries: seq<Entry>, ke: Value, ve: Value)
    requires EveryEntryAnswers(w, locs, receiver, entries, ke, ve)
    ensures AllEntriesMatch(w, locs, receiver, entries, ke, ve) == Ok(EveryEntryMatches(w, locs, receiver, entries, ke, ve))
  {
    if |entries| == 0 {
      return;
    }
    EveryEntryAnswersTail(w, locs, receiver, entries, ke, ve);
    AllEntriesMatchIff(w, locs, receiver, entries[1..], ke, ve);
    var first := entries[0];
    AllEntriesMatchStep(w, locs, receiver, entries, ke, ve);
    if ApiMatch(w, locs, receiver, first.key, ke) == Ok(true) && ApiMatch(w, locs, receiver, first.val, ve) == Ok(true) {
      if EveryEntryMatches(w, locs, receiver, entries[1..], ke, ve) {
        EveryEntryMatchesCons(w, locs, receiver, entries, ke, ve);
      }
      if EveryEntryMatches(w, locs, receiver, entries, ke, ve) {
        EveryEntryMatchesTail(w, locs, receiver, entries, ke, ve);
      }
    }
  }

  /**
   * `hash_of(k, v)` rejects every non-Hash, accepts `{}`, and accepts a Hash
   * exactly when every key matches `k` and every value matches `v`.
   */
  lemma HashOfAccepts(w: World, ke: Value, ve: Value, locs: Locations, value: Value, receiver: Value)
    requires value.VHash? ==> EveryEntryAnswers(w, locs, receiver, value.entries, ke, ve)
    ensures !value.VHash? ==> Match(w, KeywordPluginMatcher(HashOfKeyword, [ke, ve], locs), value, receiver) == Ok(false)
    ensures value == VHash([]) ==> Match(w, KeywordPluginMatcher(HashOfKeyword, [ke, ve], locs), value, receiver) == Ok(true)
    ensures value.VHash? ==> Match(w, KeywordPluginMatcher(HashOfKeyword, [ke, ve], locs), value, receiver)
                              == Ok(EveryEntryMatches(w, locs, receiver, value.entries, ke, ve))
  {
    assert NthParam([ke, ve], 0) == ke && NthParam([ke, ve], 1) == ve;
    if value.VHash? {
      AllEntriesMatchIff(w, locs, receiver, value.entries, ke, ve);
    }
  }

  /** `hash_of(k, v)` reads "hash that has keys of K and values of V, {Ks => Vs}". */
  lemma HashOfCaption(w: World, ke: Value, ve: Value, locs: Locations)
    requires ApiCaption(w, locs, ke).Ok? && ApiCaption(w, locs, ve).Ok?
    requires ApiShortCaption(w, locs, ke).Ok? && ApiShortCaption(w, locs, ve).Ok?
    ensures ShortCaption(w, KeywordPluginMatcher(HashOfKeyword, [ke, ve], locs))
         == Ok("{" + ApiShortCaption(w, locs, ke).value + " => " + ApiShortCaption(w, locs, ve).value + "}")
    ensures Caption(w, KeywordPluginMatcher(HashOfKeyword, [ke, ve], locs))
         == Ok("hash that has keys of " + ApiCaption(w, locs, ke).value + " and values of " + ApiCaption(w, locs, ve).value
               + ", " + ("{" + ApiShortCaption(w, locs, ke).value + " => " + ApiShortCaption(w, locs, ve).value + "}"))
  {
    HashOfShortCaption(w, ke, ve, locs);
    assert HashOfKeyword.behaviour.HashOf?;
    assert NthParam([ke, ve], 0) == ke && NthParam([ke, ve], 1) == ve;
    assert KeywordCaption(w, HashOfKeyword, [ke, ve], locs)
        == Ok("hash that has keys of " + ApiCaption(w, locs, ke).value + " and values of " + ApiCaption(w, locs, ve).value
              + ", " + ("{" + ApiShortCaption(w, locs, ke).value + " => " + ApiShortCaption(w, locs, ve).value + "}"));
    assert Caption(w, KeywordPluginMatcher(HashOfKeyword, [ke, ve], locs)) == KeywordCaption(w, HashOfKeyword, [ke, ve], locs);
    assert ShortCaption(w, KeywordPluginMatcher(HashOfKeyword, [ke, ve], locs)) == KeywordShortCaption(w, HashOfKeyword, [ke, ve], locs);
  }

  /** The short caption of `hash_of(k, v)` is "{Ks => Vs}". */
  lemma HashOfShortCaption(w: World, ke: Value, ve: Value, locs: Locations)
    requires ApiShortCaption(w, locs, ke).Ok? && ApiShortCaption(w, locs, ve).Ok?
    ensures KeywordShortCaption(w, HashOfKeyword, [ke, ve], locs)
         == Ok("{" + ApiShortCaption(w, locs, ke).value + " => " + ApiShortCaption(w, locs, ve).value + "}")
  {
    assert HashOfKeyword.behaviour.HashOf?;
    assert NthParam([ke, ve], 0) == ke && NthParam([ke, ve], 1) == ve;
  }

  // ---------------------------------------------------------------------
  // respondable
  // ---------------------------------------------------------------------

  /** The value responds to every name. */
  predicate RespondsToEvery(w: World, value: Value, names: seq<Value>)
  {
    forall i :: 0 <= i < |names| ==> w.respondTo(value, MethodNameOf(names[i]), false)
  }

  /**
   * `respondable(names...)` asks for every name, though its caption joins
   * them with "or"; a name that is neither Symbol nor String is a TypeError.
   */
  lemma RespondableNeedsEveryName(w: World, value: Value, names: seq<Value>, locs: Locations, receiver: Value)
    requires forall i :: 0 <= i < |names| ==> names[i].VSym? || names[i].VStr?
    ensures Match(w, KeywordPluginMatcher(RespondableKeyword, names, locs), value, receiver)
         == Ok(RespondsToEvery(w, value, names))
  {
    RespondsToAllIff(w, value, names);
  }

  /** Asking for names that are all Symbols or Strings answers whether the value responds to every one. */
  lemma {:induction false} RespondsToAllIff(w: World, value: Value, names: seq<Value>)
    requires forall i :: 0 <= i < |names| ==> names[i].VSym? || names[i].VStr?
    ensures RespondsToAll(w, value, names) == Ok(RespondsToEvery(w, value, names))
  {
    if |names| == 0 {
      return;
    }
    var tail := names[1..];
    forall i | 0 <= i < |tail|
      ensures tail[i].VSym? || tail[i].VStr?
    {
      assert tail[i] == names[i + 1];
    }
    RespondsToAllIff(w, value, tail);
    if w.respondTo(value, MethodNameOf(names[0]), false) {
      if RespondsToEvery(w, value, tail) {
        forall i | 0 <= i < |names|
          ensures w.respondTo(value, MethodNameOf(names[i]), false)
        {
          if i > 0 {
            assert names[i] == tail[i - 1];
          }
        }
      }
      if RespondsToEvery(w, value, names) {
        forall i | 0 <= i < |tail|
          ensures w.respondTo(value, MethodNameOf(tail[i]), false)
        {
          assert tail[i] == names[i + 1];
        }
      }
    }
  }

  /** `respondable(:name)` reads "respondable to #name" and "respondable(:name)". */
  lemma RespondableOneNameCaptions(w: World, name: string, locs: Locations)
    requires IdentifierName(name)
    ensures Caption(w, KeywordPluginMatcher(RespondableKeyword, [VSym(name)], locs)) == Ok("respondable to " + ("#" + name))
    ensures ShortCaption(w, KeywordPluginMatcher(RespondableKeyword, [VSym(name)], locs)) == Ok("respondable(" + (":" + name) + ")")
  {
    var names := [VSym(name)];
    assert MethodCaptions(w, names) == ["#" + name];
    Utils.OrJoinShapes(["#" + name]);
    assert KeywordCaption(w, RespondableKeyword, names, locs) == Ok("respondable to " + ("#" + name));
    assert Inspections(w, names) == [":" + name];
    Text.JoinSingle(":" + name, ", ");
    assert KeywordShortCaption(w, RespondableKeyword, names, locs) == Ok("respondable(" + (":" + name) + ")");
  }
}
