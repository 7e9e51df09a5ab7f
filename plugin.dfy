/**
 * The keyword registry: the table from keyword names to keyword classes
 * that `add_keyword`, `alias_keyword` and `remove_keyword` update, and the
 * module of keyword functions (`Keywords`) that gains and loses one method
 * per name alongside it.
 *
 * A keyword class is a value (`Values.KeywordClass`); the body a plugin
 * passes to `add_keyword` is described by which of the required instance
 * methods it defines and what it does.  The table operations are stated
 * once as functions on the table, and the registry's methods apply them.
 */
module Plugin {
  import opened Errors
  import opened Text
  import opened Values
  import Matchers

  /** What the block given to `add_keyword` defines. */
  datatype KeywordBody = KeywordBody(
    definesOnCall: bool,
    definesMatch: bool,
    definesExpectedCaption: bool,
    behaviour: Behaviour,
    /** the answer of `self.builtin_keyword?`, false unless the body overrides it */
    builtin: bool,
    arity: Arity)

  type Table = map<string, KeywordClass>

  function AlreadyReserved(name: string): Error
  {
    PluginError("the `" + name + "' keyword has been already reserved")
  }

  function NotReservedYet(name: string): Error
  {
    PluginError("the `" + name + "' keyword hasn't been reserved yet")
  }

  const MissingMethods := PluginError("#add_keyword requires 3 method definitions - `on_call', `match?' and `expected_caption'")

  function BuiltinNotRemovable(name: string): Error
  {
    PluginError("the `" + name + "' keyword cannot be removed because it is NeuronCheck builtin keyword")
  }

  /** The keyword class `Class.new(Keyword, &block)` makes, once `@keyword_name` is set. */
  function KeywordClassOf(name: string, body: KeywordBody): KeywordClass
  {
    KeywordClass(name, body.behaviour, body.builtin, body.arity)
  }

  /**
   * `add_keyword(name, &block)`: a taken name is refused before the body is
   * looked at; a body without `on_call`, `match?` and `expected_caption` is
   * refused; otherwise the name is mapped to its new class.
   */
  function AddKeyword(t: Table, name: string, body: KeywordBody): (r: Result<Table>)
    ensures name in t ==> r == Err(AlreadyReserved(name))
    ensures name !in t && !(body.definesOnCall && body.definesMatch && body.definesExpectedCaption) ==> r == Err(MissingMethods)
    ensures r.Ok? <==> name !in t && body.definesOnCall && body.definesMatch && body.definesExpectedCaption
    ensures r.Ok? ==> r.value.Keys == t.Keys + {name} && r.value[name] == KeywordClassOf(name, body)
    ensures r.Ok? ==> forall n :: n in t ==> r.value[n] == t[n]
  {
    if name in t then Err(AlreadyReserved(name))
    else if !(body.definesOnCall && body.definesMatch && body.definesExpectedCaption) then Err(MissingMethods)
    else Ok(t[name := KeywordClassOf(name, body)])
  }

  /**
   * `alias_keyword(name, original)`: a subclass of the original class under
   * the new name, so it keeps the original's methods and `builtin_keyword?`.
   */
  function AliasKeyword(t: Table, name: string, original: string): (r: Result<Table>)
    ensures name in t ==> r == Err(AlreadyReserved(name))
    ensures name !in t && original !in t ==> r == Err(NotReservedYet(original))
    ensures r.Ok? <==> name !in t && original in t
    ensures r.Ok? ==> r.value.Keys == t.Keys + {name} && forall n :: n in t ==> r.value[n] == t[n]
    ensures r.Ok? ==> r.value[name].name == name
  {
    if name in t then Err(AlreadyReserved(name))
    else if original !in t then Err(NotReservedYet(original))
    else Ok(t[name := t[original].(name := name)])
  }

  /** `remove_keyword(name)`: absent names and built-in keywords are refused; otherwise the entry goes. */
  function RemoveKeyword(t: Table, name: string): (r: Result<Table>)
    ensures name !in t ==> r == Err(NotReservedYet(name))
    ensures name in t && t[name].builtin ==> r == Err(BuiltinNotRemovable(name))
    ensures r.Ok? <==> name in t && !t[name].builtin
    ensures r.Ok? ==> r.value.Keys == t.Keys - {name} && forall n :: n in r.value ==> r.value[n] == t[n]
  {
    if name !in t then Err(NotReservedYet(name))
    else if t[name].builtin then Err(BuiltinNotRemovable(name))
    else Ok(map n | n in t && n != name :: t[n])
  }

  /** `ArgumentError` for a call of `on_call` with the wrong number of parameters. */
  function WrongArity(given: nat, expected: nat): Error
  {
    RubyError("ArgumentError",
      "wrong number of arguments (given " + IntToString(given) + ", expected " + IntToString(expected) + ")")
  }

  /**
   * Calling the keyword function `name(*params)`: a fresh instance of the
   * class it was installed with, whose `on_call` stored the parameters.
   */
  function CallKeyword(functions: Table, name: string, params: seq<Value>): (r: Result<Value>)
    ensures name !in functions ==> r.Err? && r.error.RubyError? && r.error.className == "NoMethodError"
    ensures r.Ok? <==> name in functions && (functions[name].arity.Exactly? ==> |params| == functions[name].arity.n)
    ensures r.Ok? ==> r.value == VKeyword(functions[name], params)
  {
    if name !in functions then
      Err(RubyError("NoMethodError", "undefined method `" + name + "' for NeuronCheckSystem::Keywords:Module"))
    else
      var k := functions[name];
      if k.arity.Exactly? && |params| != k.arity.n then Err(WrongArity(|params|, k.arity.n))
      else Ok(VKeyword(k, params))
  }

  // ---------------------------------------------------------------------
  // The registry
  // ---------------------------------------------------------------------

  /** `KEYWORD_CLASSES` and the keyword functions of the `Keywords` module. */
  class KeywordRegistry {
    var classes: Table
    /** each keyword function, with the class it instantiates */
    var functions: Table

    /** Every registered name has its function, and only those names do. */
    ghost predicate Valid()
      reads this
    {
      functions == classes
    }

    constructor ()
      ensures Valid() && classes == map[]
    {
      classes := map[];
      functions := map[];
    }

    method Add(name: string, body: KeywordBody) returns (o: Outcome)
      requires Valid()
      modifies this
      ensures Valid()
      ensures var r := AddKeyword(old(classes), name, body);
        if r.Ok? then o == Pass && classes == r.value else o == Fail(r.error) && classes == old(classes)
    {
      var r := AddKeyword(classes, name, body);
      if r.Err? {
        return Fail(r.error);
      }
      classes := r.value;
      functions := functions[name := classes[name]];
      o := Pass;
    }

    method Alias(name: string, original: string) returns (o: Outcome)
      requires Valid()
      modifies this
      ensures Valid()
      ensures var r := AliasKeyword(old(classes), name, original);
        if r.Ok? then o == Pass && classes == r.value else o == Fail(r.error) && classes == old(classes)
    {
      var r := AliasKeyword(classes, name, original);
      if r.Err? {
        return Fail(r.error);
      }
      classes := r.value;
      functions := functions[name := classes[name]];
      o := Pass;
    }

    method Remove(name: string) returns (o: Outcome)
      requires Valid()
      modifies this
      ensures Valid()
      ensures var r := RemoveKeyword(old(classes), name);
        if r.Ok? then o == Pass && classes == r.value else o == Fail(r.error) && classes == old(classes)
    {
      var r := RemoveKeyword(classes, name);
      if r.Err? {
        return Fail(r.error);
      }
      classes := r.value;
      functions := map n | n in functions && n != name :: functions[n];
      o := Pass;
    }

    /** `Keywords.name(*params)` */
    method Invoke(name: string, params: seq<Value>) returns (r: Result<Value>)
      requires Valid()
      ensures r == CallKeyword(classes, name, params)
    {
      r := CallKeyword(functions, name, params);
    }
  }

  // ---------------------------------------------------------------------
  // Properties of the registry
  // ---------------------------------------------------------------------

  /** A keyword added and then removed leaves the table as it was, and its name free again. */
  lemma AddThenRemove(t: Table, name: string, body: KeywordBody)
    requires AddKeyword(t, name, body).Ok? && !body.builtin
    ensures RemoveKeyword(AddKeyword(t, name, body).value, name) == Ok(t)
  {
    var t' := AddKeyword(t, name, body).value;
    var r := RemoveKeyword(t', name).value;
    assert r.Keys == t.Keys;
    assert forall n :: n in r ==> r[n] == t[n];
    assert r == t;
  }

  /** Removing a keyword frees its name: the same body can be added again. */
  lemma RemoveThenAddAgain(t: Table, name: string, body: KeywordBody)
    requires RemoveKeyword(t, name).Ok?
    requires body.definesOnCall && body.definesMatch && body.definesExpectedCaption
    ensures AddKeyword(RemoveKeyword(t, name).value, name, body).Ok?
    ensures CallKeyword(AddKeyword(RemoveKeyword(t, name).value, name, body).value, name, []).Ok?
        <==> (body.arity.Exactly? ==> body.arity.n == 0)
  {
  }

  /**
   * An alias behaves as its original: same methods, same arity, same
   * built-in answer; only its name differs.  Calling it makes the same
   * keyword instance but for the name.
   */
  lemma AliasBehavesAsOriginal(t: Table, name: string, original: string, params: seq<Value>)
    requires AliasKeyword(t, name, original).Ok?
    ensures var t' := AliasKeyword(t, name, original).value;
      t'[name].behaviour == t[original].behaviour && t'[name].builtin == t[original].builtin
      && t'[name].arity == t[original].arity
    ensures var t' := AliasKeyword(t, name, original).value;
      CallKeyword(t', name, params).Ok? <==> CallKeyword(t, original, params).Ok?
  {
  }

  /** A keyword that is not built in gives its caption as short caption and `{}` as its parameters. */
  lemma KeywordDefaults(w: World, name: string, id: nat, arity: Arity, params: seq<Value>, locs: Matchers.Locations)
    ensures var k := KeywordClassOf(name, KeywordBody(true, true, true, Custom(id, false, false), false, arity));
      !k.builtin
      && Matchers.KeywordShortCaption(w, k, params, locs) == Ok(w.pluginCaption(id, params))
      && Matchers.KeywordCaption(w, k, params, locs) == Ok(w.pluginCaption(id, params))
      && Matchers.KeywordParamsJson(w, k, params, locs) == Ok([])
  {
  }

  /**
   * The keyword API resolves an expectation with the declaration's
   * locations and asks the resulting matcher, against the receiver bound
   * to the API; a failed resolution is the API's failure.
   */
  lemma ApiMatchDelegates(w: World, locs: Matchers.Locations, receiver: Value, value: Value, e: Value)
    ensures Matchers.Resolve(w, e, locs).Err? ==>
      Matchers.ApiMatch(w, locs, receiver, value, e) == Err(Matchers.Resolve(w, e, locs).error)
    ensures Matchers.Resolve(w, e, locs).Ok? ==>
      Matchers.ApiMatch(w, locs, receiver, value, e) == Matchers.Match(w, Matchers.Resolve(w, e, locs).value, value, receiver)
  {
  }
}
