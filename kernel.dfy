/**
 * The engine: the tables of declarations, the hooks that bind a pending
 * declaration to the method or attributes defined after it, the checks
 * run when a declared method is called and when it returns, the attribute
 * wrappers, the global on/off switch, the one-off `match?` and `check`,
 * and the export of every declaration as JSON.
 *
 * Ruby's method-call tracing is the engine's caller here: `OnCall` and
 * `OnReturn` are what the trace point does with each event, given the
 * values the called method's parameters are bound to, in parameter order.
 */
module Kernel {
  import opened Errors
  import opened Text
  import opened Values
  import opened Matchers
  import opened Declarations
  import CondBlocks
  import Utils

  // ---------------------------------------------------------------------
  // Argument checks
  // ---------------------------------------------------------------------

  /** Argument matchers are asked with the NeuronCheckSystem module as receiver. */
  const ArgumentCheckReceiver := VClass(SystemModule)

  /** The parameters' values fit their kinds: a rest parameter holds an Array, a keyword rest a Hash. */
  predicate BindingsFit(params: seq<Param>, bindings: seq<Value>)
  {
    |bindings| == |params|
    && forall i :: 0 <= i < |params| ==>
         (params[i].kind == Rest ==> bindings[i].VArray?) && (params[i].kind == KeyRest ==> bindings[i].VHash?)
  }

  function EntryValues(entries: seq<Entry>): (r: seq<Value>)
    ensures |r| == |entries| && forall i :: 0 <= i < |entries| ==> r[i] == entries[i].val
  {
    seq(|entries|, i requires 0 <= i < |entries| => entries[i].val)
  }

  function NameOnly(d: Declaration): string
  {
    Interp(SignatureCaptionNameOnly(d))
  }

  /** "argument `name' of `Foo#bar'" for keyword parameters, with an ordinal in front for the others. */
  function ArgumentCaption(d: Declaration, p: Param, ordinal: int): string
  {
    if p.kind == Key || p.kind == KeyRest then "argument `" + p.name + "' of `" + NameOnly(d) + "'"
    else Utils.Ordinalize(ordinal) + " argument `" + p.name + "' of `" + NameOnly(d) + "'"
  }

  /** A failed argument check: the matcher, the context caption and the value that was refused. */
  datatype ArgFailure = ArgFailure(matcher: Matcher, caption: string, value: Value)

  /** The index of the first of `items[from..]` that `m` refuses. */
  function FirstRefused(w: World, m: Matcher, items: seq<Value>, from: nat): (r: Result<Option<nat>>)
    requires from <= |items|
    ensures r.Ok? && r.value.Some? ==> from <= r.value.value < |items|
    decreases |items| - from
  {
    if from == |items| then Ok(None)
    else
      var ok :- Match(w, m, items[from], ArgumentCheckReceiver);
      if !ok then Ok(Some(from)) else FirstRefused(w, m, items, from + 1)
  }

  /** What `FirstRefused` finds: a refused item with every earlier one accepted, or all accepted. */
  lemma {:induction false} FirstRefusedMeaning(w: World, m: Matcher, items: seq<Value>, from: nat)
    requires from <= |items|
    requires forall i :: from <= i < |items| ==> Match(w, m, items[i], ArgumentCheckReceiver).Ok?
    ensures FirstRefused(w, m, items, from).Ok?
    ensures FirstRefused(w, m, items, from).value.None? <==>
      forall i :: from <= i < |items| ==> Match(w, m, items[i], ArgumentCheckReceiver) == Ok(true)
    ensures FirstRefused(w, m, items, from).value.Some? ==>
      var k := FirstRefused(w, m, items, from).value.value;
      Match(w, m, items[k], ArgumentCheckReceiver) == Ok(false)
      && forall i :: from <= i < k ==> Match(w, m, items[i], ArgumentCheckReceiver) == Ok(true)
    decreases |items| - from
  {
    if from < |items| {
      FirstRefusedMeaning(w, m, items, from + 1);
    }
  }

  /** The check of parameter `i`, when the declaration has a matcher for it. */
  function ParamFailure(w: World, d: Declaration, params: seq<Param>, bindings: seq<Value>, i: nat)
    : Result<Option<ArgFailure>>
    requires i < |params| && BindingsFit(params, bindings)
  {
    if i >= |d.argMatchers| then Ok(None)
    else
      var m := d.argMatchers[i];
      var p := params[i];
      var v := bindings[i];
      if p.kind == KeyRest then
        var values := EntryValues(v.entries);
        var k :- FirstRefused(w, m, values, 0);
        Ok(if k.Some? then Some(ArgFailure(m, ArgumentCaption(d, p, 0), values[k.value])) else None)
      else if p.kind == Rest then
        var k :- FirstRefused(w, m, v.items, 0);
        Ok(if k.Some? then Some(ArgFailure(m, ArgumentCaption(d, p, i + 1 + k.value), v.items[k.value])) else None)
      else
        var ok :- Match(w, m, v, ArgumentCheckReceiver);
        Ok(if ok then None else Some(ArgFailure(m, ArgumentCaption(d, p, i + 1), v)))
  }

  /** The first failing argument from parameter `i` on. */
  function FirstArgumentFailure(w: World, d: Declaration, params: seq<Param>, bindings: seq<Value>, i: nat)
    : Result<Option<ArgFailure>>
    requires i <= |params| && BindingsFit(params, bindings)
    decreases |params| - i
  {
    if i == |params| then Ok(None)
    else
      var f :- ParamFailure(w, d, params, bindings, i);
      if f.Some? then Ok(f) else FirstArgumentFailure(w, d, params, bindings, i + 1)
  }

  /** Parameters past the declared matchers are never checked. */
  lemma {:induction false} UndeclaredParamsUnchecked(w: World, d: Declaration, params: seq<Param>, bindings: seq<Value>, i: nat)
    requires |d.argMatchers| <= i <= |params| && BindingsFit(params, bindings)
    ensures FirstArgumentFailure(w, d, params, bindings, i) == Ok(None)
    decreases |params| - i
  {
    if i < |params| {
      UndeclaredParamsUnchecked(w, d, params, bindings, i + 1);
    }
  }

  /** `param_values`: each parameter's name bound to its value. */
  function ParamValues(params: seq<Param>, bindings: seq<Value>, n: nat): map<string, Value>
    requires n <= |params| && |bindings| == |params|
  {
    if n == 0 then map[] else ParamValues(params, bindings, n - 1)[params[n - 1].name := bindings[n - 1]]
  }

  /** The signature line of a violation message, present for a declaration bound to a method. */
  function SignatureFor(w: World, d: Declaration): Option<Result<string>>
  {
    if d.assignedMethod.None? then None
    else match SignatureCaption(w, d)
      case Ok(s) => Some(Ok(Interp(s)))
      case Err(e) => Some(Err(e))
  }

  /** A violation: NeuronCheckError with the matcher's message, or the error computing it raised. */
  function Violation(w: World, d: Option<Declaration>, m: Matcher, caption: string, value: Value, phrase: string): (o: Outcome)
    ensures o.Fail?
  {
    var sig := if d.Some? then SignatureFor(w, d.value) else None;
    match ErrorMessage(w, m, sig, caption, value, phrase)
    case Ok(msg) => Fail(NeuronCheckError(msg))
    case Err(e) => Fail(e)
  }

  /** Running a condition block: a thrown assertion message becomes a NeuronCheckError. */
  function CondCheck(w: World, cond: Option<Cond>, blockName: string, receiver: Value, allow: bool,
                     values: map<string, Value>, args: seq<Value>): Outcome
  {
    match cond
    case None => Pass
    case Some(c) =>
      match CondBlocks.RunCond(w, CondBlocks.CondBlockContext(blockName, receiver, allow), c.steps(values, args))
      case Continue => Pass
      case Thrown(msg) => Fail(NeuronCheckError(msg))
      case Raised(e) => Fail(e)
  }

  /**
   * `trace_method_call`: argument checks in parameter order, the first
   * refused argument being the violation; then the precondition.
   */
  function CallCheck(w: World, receiver: Value, d: Declaration, bindings: seq<Value>): (o: Outcome)
    requires d.assignedMethod.Some? && BindingsFit(d.assignedMethod.value.params, bindings)
    ensures FirstArgumentFailure(w, d, d.assignedMethod.value.params, bindings, 0).Err? ==>
      o == Fail(FirstArgumentFailure(w, d, d.assignedMethod.value.params, bindings, 0).error)
    ensures o.Pass? ==> FirstArgumentFailure(w, d, d.assignedMethod.value.params, bindings, 0) == Ok(None)
  {
    var params := d.assignedMethod.value.params;
    match FirstArgumentFailure(w, d, params, bindings, 0)
    case Err(e) => Fail(e)
    case Ok(Some(f)) => Violation(w, Some(d), f.matcher, f.caption, f.value, "was")
    case Ok(None) =>
      CondCheck(w, d.precond, "precond", receiver, d.precondAllowInstanceMethod, ParamValues(params, bindings, |params|), [])
  }

  /** An argument check failed: this is what makes the return check skip. */
  predicate ArgumentRefused(w: World, d: Declaration, bindings: seq<Value>)
    requires d.assignedMethod.Some? && BindingsFit(d.assignedMethod.value.params, bindings)
  {
    var r := FirstArgumentFailure(w, d, d.assignedMethod.value.params, bindings, 0);
    r.Ok? && r.value.Some?
  }

  /** A call passes exactly when every declared argument is accepted and the precondition completes. */
  lemma CallCheckPasses(w: World, receiver: Value, d: Declaration, bindings: seq<Value>)
    requires d.assignedMethod.Some? && BindingsFit(d.assignedMethod.value.params, bindings)
    ensures CallCheck(w, receiver, d, bindings) == Pass <==>
      FirstArgumentFailure(w, d, d.assignedMethod.value.params, bindings, 0) == Ok(None)
      && CondCheck(w, d.precond, "precond", receiver, d.precondAllowInstanceMethod,
                   ParamValues(d.assignedMethod.value.params, bindings, |d.assignedMethod.value.params|), []) == Pass
    ensures ArgumentRefused(w, d, bindings) ==> CallCheck(w, receiver, d, bindings).Fail?
  {
  }

  /** `trace_method_return`: the return value against its matcher, with the real receiver; then the postcondition. */
  function ReturnCheck(w: World, receiver: Value, d: Declaration, bindings: seq<Value>, ret: Value): (o: Outcome)
    requires d.assignedMethod.Some? && |bindings| == |d.assignedMethod.value.params|
    ensures d.returnMatcher.Some? && Match(w, d.returnMatcher.value, ret, receiver) != Ok(true) ==> o.Fail?
    ensures d.returnMatcher.Some? && Match(w, d.returnMatcher.value, ret, receiver).Err? ==>
      o == Fail(Match(w, d.returnMatcher.value, ret, receiver).error)
    ensures o.Pass? <==>
      (d.returnMatcher.None? || Match(w, d.returnMatcher.value, ret, receiver) == Ok(true))
      && CondCheck(w, d.postcond, "postcond", receiver, d.postcondAllowInstanceMethod,
                   ParamValues(d.assignedMethod.value.params, bindings, |bindings|), [ret]).Pass?
  {
    var params := d.assignedMethod.value.params;
    var checked :=
      if d.returnMatcher.None? then Pass
      else match Match(w, d.returnMatcher.value, ret, receiver)
        case Err(e) => Fail(e)
        case Ok(true) => Pass
        case Ok(false) => Violation(w, Some(d), d.returnMatcher.value, "return value of `" + NameOnly(d) + "'", ret, "was");
    if checked.Fail? then checked
    else CondCheck(w, d.postcond, "postcond", receiver, d.postcondAllowInstanceMethod,
                   ParamValues(params, bindings, |params|), [ret])
  }

  // ---------------------------------------------------------------------
  // Binding a declaration to a method
  // ---------------------------------------------------------------------

  function KeywordNameOf(m: Matcher): Option<string>
  {
    if m.KeywordPluginMatcher? then Some(m.keyword.name) else None
  }

  /** A block parameter may only be declared with `any` or `block`. */
  predicate BlockParamAllowed(d: Declaration, params: seq<Param>, i: nat)
    requires i < |params|
  {
    params[i].kind == Block && i < |d.argMatchers| ==> KeywordNameOf(d.argMatchers[i]) in {Some("any"), Some("block")}
  }

  /** The first block parameter from `i` on declared with anything but `any` or `block`. */
  function FirstBadBlockParam(d: Declaration, params: seq<Param>, i: nat): (r: Option<nat>)
    requires i <= |params|
    ensures r.Some? ==> i <= r.value < |params| && !BlockParamAllowed(d, params, r.value)
    ensures r.None? <==> forall j :: i <= j < |params| ==> BlockParamAllowed(d, params, j)
    decreases |params| - i
  {
    if i == |params| then None
    else if !BlockParamAllowed(d, params, i) then Some(i)
    else FirstBadBlockParam(d, params, i + 1)
  }

  /** The declaration as `__neuron_check_method_added_hook` binds it, before its checks. */
  function BindToMethod(d: Declaration, owner: Owner, met: MethodDef, singletonOriginal: Option<ClassRef>): (r: Declaration)
    ensures SignatureCaptionNameOnly(r).Some? && r.assignedClassOrModule == Some(owner) && r.assignedMethod == Some(met)
    ensures r.argMatchers == d.argMatchers && r.returnMatcher == d.returnMatcher && r.attrMatcher == d.attrMatcher
    ensures r.precond == d.precond && r.postcond == d.postcond && r.assignedAttributeName == d.assignedAttributeName
  {
    d.(assignedClassOrModule := Some(owner), assignedMethod := Some(met), assignedSingletonOriginalClass := singletonOriginal)
  }

  /** What the hook refuses in a declaration it has just bound, in the order it checks. */
  function HookError(d: Declaration, name: string, met: MethodDef, singleton: bool): (r: Option<Error>)
    ensures r.None? <==>
      |d.argMatchers| <= |met.params|
      && (forall j :: 0 <= j < |met.params| ==> BlockParamAllowed(d, met.params, j))
      && !(!singleton && name == "initialize" && d.returnMatcher.Some?)
    ensures r.Some? ==> r.value.DeclarationError?
  {
    if |d.argMatchers| > |met.params| then
      Some(DeclarationError("given arguments number of #" + name + " greater than method definition - expected "
                            + IntToString(|met.params|) + " args, but " + IntToString(|d.argMatchers|) + " args were declared"))
    else
      match FirstBadBlockParam(d, met.params, 0)
      case Some(i) =>
        Some(DeclarationError(Utils.Ordinalize(i + 1) + " argument `" + met.params[i].name + "' of `" + NameOnly(d)
                              + "' is block argument - it can be specified only keyword `any' or `block'"))
      case None =>
        if !singleton && name == "initialize" && d.returnMatcher.Some? then
          Some(DeclarationError("returns declaration cannot be used with `#initialize' method"))
        else None
  }

  // ---------------------------------------------------------------------
  // Binding a declaration to attributes
  // ---------------------------------------------------------------------

  /**
   * The matcher the attribute wrappers check with: the one argument of a
   * shorthand declaration, or the `val` of a block; method-only parts are
   * refused.
   */
  function AttrTarget(d: Declaration, used: string): (r: Result<Option<Matcher>>)
    ensures r.Ok? <==> (if d.shorthand then |d.argMatchers| <= 1 else |d.argMatchers| == 0) && d.returnMatcher.None?
    ensures r.Ok? ==> r.value == (if d.shorthand then (if |d.argMatchers| == 1 then Some(d.argMatchers[0]) else None) else d.attrMatcher)
  {
    if d.shorthand then
      if |d.argMatchers| >= 2 || d.returnMatcher.Some? then
        Err(DeclarationError("expected value must be one for `" + used + "'"))
      else Ok(if |d.argMatchers| == 1 then Some(d.argMatchers[0]) else None)
    else
      if |d.argMatchers| >= 1 || d.returnMatcher.Some? then
        Err(DeclarationError("`args' or `returns' declaration can be used only for method definition, but used for `" + used + "'"))
      else Ok(d.attrMatcher)
  }

  /**
   * Every attribute name is registered with the one declaration object, so
   * after the loop each entry says it belongs to the last name.
   */
  function BindToAttributes(d: Declaration, cls: ClassRef, names: seq<string>): Declaration
  {
    if |names| == 0 then d
    else d.(assignedClassOrModule := Some(Owner(cls, false)), assignedAttributeName := Some(names[|names| - 1]))
  }

  /** What an attribute wrapper does with a value it reads or writes. */
  function AttrCheck(w: World, matcher: Option<Matcher>, obj: Value, attr: string, v: Value, phrase: string): (o: Outcome)
    ensures o.Pass? <==> matcher.None? || Match(w, matcher.value, v, obj) == Ok(true)
    ensures matcher.Some? && Match(w, matcher.value, v, obj).Err? ==> o == Fail(Match(w, matcher.value, v, obj).error)
  {
    match matcher
    case None => Pass
    case Some(m) =>
      match Match(w, m, v, obj)
      case Err(e) => Fail(e)
      case Ok(true) => Pass
      case Ok(false) =>
        Violation(w, None, m, "value of attribute `" + Interp(ClassNameOf(obj)) + "#" + attr + "'", v, phrase)
  }

  /**
   * A reader wrapper as written: the last expression of its body is the
   * `if` around the check, so once the check passes (or there is no
   * matcher) the wrapper returns nil rather than the value `super()` read.
   * A name without a wrapper reads the stored value.
   */
  function ReaderAsWritten(w: World, readers: map<string, Option<Matcher>>, obj: Value, name: string, stored: Value): (r: Result<Value>)
    ensures name !in readers ==> r == Ok(stored)
    ensures name in readers ==>
      match AttrCheck(w, readers[name], obj, name, stored, "was")
      case Pass => r == Ok(VNil)
      case Fail(e) => r == Err(e)
  {
    if name !in readers then Ok(stored)
    else
      match AttrCheck(w, readers[name], obj, name, stored, "was")
      case Pass => Ok(VNil)
      case Fail(e) => Err(e)
  }

  /** A reader wrapper as intended: it returns what it read once the check passes. */
  function Reader(w: World, readers: map<string, Option<Matcher>>, obj: Value, name: string, stored: Value): (r: Result<Value>)
    ensures r.Ok? ==> r.value == stored
    ensures r.Err? <==> name in readers && AttrCheck(w, readers[name], obj, name, stored, "was").Fail?
  {
    if name !in readers then Ok(stored)
    else
      match AttrCheck(w, readers[name], obj, name, stored, "was")
      case Pass => Ok(stored)
      case Fail(e) => Err(e)
  }

  /**
   * The wrapper as written loses the value: an attribute declared without a
   * matcher that holds 1 reads as nil.
   */
  lemma ReaderAsWrittenReadsNil(w: World, obj: Value)
    ensures ReaderAsWritten(w, map["x" := None], obj, "x", VInt(1)) == Ok(VNil)
    ensures Reader(w, map["x" := None], obj, "x", VInt(1)) == Ok(VInt(1))
  {
  }

  /** The two wrappers differ exactly on passing reads of a non-nil value through a wrapper. */
  lemma ReaderAsWrittenDiffers(w: World, readers: map<string, Option<Matcher>>, obj: Value, name: string, stored: Value)
    ensures ReaderAsWritten(w, readers, obj, name, stored) != Reader(w, readers, obj, name, stored)
      <==> name in readers && AttrCheck(w, readers[name], obj, name, stored, "was").Pass? && stored != VNil
  {
  }

  /** An attribute check fails exactly when the matcher does not accept the value. */
  lemma AttrCheckPasses(w: World, m: Matcher, obj: Value, attr: string, v: Value, phrase: string)
    requires Match(w, m, v, obj).Ok?
    ensures AttrCheck(w, Some(m), obj, attr, v, phrase) == Pass <==> Match(w, m, v, obj) == Ok(true)
    ensures Match(w, m, v, obj) == Ok(false) && Caption(w, m).Ok? ==>
      AttrCheck(w, Some(m), obj, attr, v, phrase)
        == Fail(NeuronCheckError(ErrorMessage(w, m, None, "value of attribute `" + Interp(ClassNameOf(obj)) + "#" + attr + "'", v, phrase).value))
  {
  }

  // ---------------------------------------------------------------------
  // The one-off checks
  // ---------------------------------------------------------------------

  /** `NeuronCheck.match?(value) { expected }`: no locations, and nil as the receiver. */
  function MatchP(w: World, value: Value, expected: Value): (r: Result<bool>)
    ensures Resolve(w, expected, []).Err? ==> r == Err(Resolve(w, expected, []).error)
    ensures Resolve(w, expected, []).Ok? ==> r == Match(w, Resolve(w, expected, []).value, value, VNil)
    ensures Resolve(w, expected, []) == Ok(SelfMatcher([])) ==> r == Ok(value == VNil)
  {
    var m :- Resolve(w, expected, []);
    Match(w, m, value, VNil)
  }

  /** `NeuronCheck.check(value) { expected }` */
  function Check(w: World, value: Value, expected: Value): (o: Outcome)
    ensures Resolve(w, expected, []).Err? ==> o == Fail(Resolve(w, expected, []).error)
    ensures o.Pass? <==> Resolve(w, expected, []).Ok? && Match(w, Resolve(w, expected, []).value, value, VNil) == Ok(true)
  {
    match Resolve(w, expected, [])
    case Err(e) => Fail(e)
    case Ok(m) =>
      match Match(w, m, value, VNil)
      case Err(e) => Fail(e)
      case Ok(true) => Pass
      case Ok(false) => Violation(w, None, m, "value", value, "was")
  }

  /**
   * `check` passes exactly when `match?` answers true, and otherwise raises
   * `match?`'s error or a violation whose message has no signature and no
   * locations.
   */
  lemma CheckAgreesWithMatch(w: World, value: Value, expected: Value)
    ensures Check(w, value, expected) == Pass <==> MatchP(w, value, expected) == Ok(true)
    ensures MatchP(w, value, expected).Err? ==> Check(w, value, expected) == Fail(MatchP(w, value, expected).error)
    ensures MatchP(w, value, expected) == Ok(false) ==>
      var m := Resolve(w, expected, []).value;
      Caption(w, m).Ok? ==>
        Check(w, value, expected) == Fail(NeuronCheckError(
          ExpectationLine("value", Caption(w, m).value, "was", Inspect(w, value)) + GotLine(Inspect(w, value))))
  {
    CheckAnswersAsMatch(w, value, expected);
    if MatchP(w, value, expected) == Ok(false) {
      var m := Resolve(w, expected, []).value;
      if Caption(w, m).Ok? {
        assert m.locations == [];
        ViolationWithoutLocations(w, m, value);
      }
    }
  }

  /** `check` passes exactly when `match?` is true, and raises `match?`'s error. */
  lemma CheckAnswersAsMatch(w: World, value: Value, expected: Value)
    ensures Check(w, value, expected) == Pass <==> MatchP(w, value, expected) == Ok(true)
    ensures MatchP(w, value, expected).Err? ==> Check(w, value, expected) == Fail(MatchP(w, value, expected).error)
  {
  }

  /** A violation with no declaration and no locations is the expectation line and the got line. */
  lemma ViolationWithoutLocations(w: World, m: Matcher, value: Value)
    requires m.locations == [] && Caption(w, m).Ok?
    ensures Violation(w, None, m, "value", value, "was") == Fail(NeuronCheckError(
      ExpectationLine("value", Caption(w, m).value, "was", Inspect(w, value)) + GotLine(Inspect(w, value))))
  {
    ErrorMessageLayout(w, m, None, "value", value, "was");
    assert DeclaredAtBlock([]) == "";
  }

  // ---------------------------------------------------------------------
  // The engine
  // ---------------------------------------------------------------------

  const ExtendOnlyModules := RubyError("ScriptError", "NeuronCheck can be extended only to Class or Module")

  /** The kind of attribute definition being wrapped. */
  datatype AttrKind = Attr(assignable: bool) | AttrReader | AttrWriter | AttrAccessor

  function AttrMethodName(k: AttrKind): string
  {
    match k
    case Attr(_) => "attr"
    case AttrReader => "attr_reader"
    case AttrWriter => "attr_writer"
    case AttrAccessor => "attr_accessor"
  }

  predicate DefinesReader(k: AttrKind)
  {
    !k.AttrWriter?
  }

  predicate DefinesWriter(k: AttrKind)
  {
    match k
    case Attr(assignable) => assignable
    case AttrReader => false
    case _ => true
  }

  class Engine {
    /** `METHOD_DECLARATIONS`: per class or singleton class, method name to declaration */
    var methodDeclarations: map<Owner, map<string, Declaration>>
    /** `ATTR_DECLARATIONS`: per class, attribute name to declaration */
    var attrDeclarations: map<ClassRef, map<string, Declaration>>
    /** `NeuronCheck.enabled?`, which is also whether the trace point is on */
    var enabled: bool
    /** the receiver and method name of the last refused argument */
    var lastArgumentErrorInfo: Option<(Value, string)>

    /** Every registered method declaration is bound to its method. */
    ghost predicate Valid()
      reads this
    {
      forall o, n :: o in methodDeclarations && n in methodDeclarations[o] ==> methodDeclarations[o][n].assignedMethod.Some?
    }

    /** The tables have the entries `initialize_module_for_neuron_check` made for `m`. */
    predicate Tracks(m: CheckedModule)
      reads this
    {
      Owner(m.cls, false) in methodDeclarations && Owner(m.cls, true) in methodDeclarations && m.cls in attrDeclarations
    }

    constructor ()
      ensures Valid() && enabled && lastArgumentErrorInfo.None?
      ensures methodDeclarations == map[] && attrDeclarations == map[]
    {
      methodDeclarations := map[];
      attrDeclarations := map[];
      enabled := true;
      lastArgumentErrorInfo := None;
    }

    /** `initialize_module_for_neuron_check`: a second call does nothing. */
    method InitializeModule(m: CheckedModule)
      requires m.initialized ==> Tracks(m)
      modifies this, m
      ensures m.initialized && Tracks(m)
      ensures old(m.initialized) ==> unchanged(this) && unchanged(m)
      ensures !old(m.initialized) ==>
        methodDeclarations == old(methodDeclarations)[Owner(m.cls, false) := map[]][Owner(m.cls, true) := map[]]
        && attrDeclarations == old(attrDeclarations)[m.cls := map[]]
        && m.lastDeclaration.None? && m.hookEnabled && m.extended == old(m.extended)
        && m.readers == old(m.readers) && m.writers == old(m.writers)
      ensures enabled == old(enabled) && lastArgumentErrorInfo == old(lastArgumentErrorInfo)
      ensures old(Valid()) ==> Valid()
    {
      if m.initialized {
        return;
      }
      methodDeclarations := methodDeclarations[Owner(m.cls, false) := map[]][Owner(m.cls, true) := map[]];
      attrDeclarations := attrDeclarations[m.cls := map[]];
      m.lastDeclaration := None;
      m.hookEnabled := true;
      m.initialized := true;
    }

    /** `NeuronCheck.extended`: only a Class or Module can be extended, and a second extension does nothing. */
    method Extend(m: CheckedModule, isModule: bool) returns (o: Outcome)
      requires m.initialized ==> Tracks(m)
      requires m.extended ==> m.initialized
      modifies this, m
      ensures !isModule ==> o == Fail(ExtendOnlyModules) && unchanged(this) && unchanged(m)
      ensures isModule ==> o == Pass && m.extended && m.initialized && Tracks(m)
      ensures isModule && old(m.extended) ==> unchanged(this) && unchanged(m)
      ensures isModule && !old(m.extended) && old(m.initialized) ==>
        unchanged(this) && m.lastDeclaration == old(m.lastDeclaration) && m.hookEnabled == old(m.hookEnabled)
      ensures isModule && !old(m.initialized) ==>
        methodDeclarations == old(methodDeclarations)[Owner(m.cls, false) := map[]][Owner(m.cls, true) := map[]]
        && attrDeclarations == old(attrDeclarations)[m.cls := map[]]
        && m.lastDeclaration.None? && m.hookEnabled
      ensures m.readers == old(m.readers) && m.writers == old(m.writers)
      ensures enabled == old(enabled) && lastArgumentErrorInfo == old(lastArgumentErrorInfo)
      ensures old(Valid()) ==> Valid()
    {
      if !isModule {
        return Fail(ExtendOnlyModules);
      }
      if m.extended {
        return Pass;
      }
      InitializeModule(m);
      m.extended := true;
      o := Pass;
    }

    /** `ndecl`: initialises the module on first use, then makes the declaration pending. */
    method Ndecl(w: World, m: CheckedModule, expecteds: seq<Value>, block: Option<seq<DeclStep>>,
                 locs: Locations, libraryLocs: Locations) returns (o: Outcome)
      requires m.initialized ==> Tracks(m)
      modifies this, m
      ensures m.initialized && Tracks(m)
      ensures old(Valid()) ==> Valid()
      ensures var pending := if old(m.initialized) then old(m.lastDeclaration) else None;
        if pending.Some? then o == Fail(RepeatedDeclarations) && m.lastDeclaration == pending
        else var r := NdeclDeclaration(w, expecteds, block, locs, libraryLocs);
          if r.Ok? then o == Pass && m.lastDeclaration == Some(r.value) else o == Fail(r.error) && m.lastDeclaration.None?
      ensures old(m.initialized) ==>
        methodDeclarations == old(methodDeclarations) && attrDeclarations == old(attrDeclarations)
        && m.hookEnabled == old(m.hookEnabled)
      ensures !old(m.initialized) ==>
        methodDeclarations == old(methodDeclarations)[Owner(m.cls, false) := map[]][Owner(m.cls, true) := map[]]
        && attrDeclarations == old(attrDeclarations)[m.cls := map[]] && m.hookEnabled
      ensures m.readers == old(m.readers) && m.writers == old(m.writers) && m.extended == old(m.extended)
      ensures enabled == old(enabled) && lastArgumentErrorInfo == old(lastArgumentErrorInfo)
    {
      if !m.initialized {
        InitializeModule(m);
      }
      o := m.NdeclMain(w, expecteds, block, locs, libraryLocs);
    }

    /** The top-level `ndecl`: a declaration for Object, which is extended first if it was not. */
    method ToplevelNdecl(w: World, objectModule: CheckedModule, expecteds: seq<Value>, block: Option<seq<DeclStep>>,
                         locs: Locations, libraryLocs: Locations) returns (o: Outcome)
      requires objectModule.cls == ObjectClass && (objectModule.initialized ==> Tracks(objectModule))
      requires objectModule.extended ==> objectModule.initialized
      modifies this, objectModule
      ensures objectModule.extended && objectModule.initialized && Tracks(objectModule)
      ensures old(Valid()) ==> Valid()
      ensures var pending := if old(objectModule.extended) then old(objectModule.lastDeclaration)
                             else if old(objectModule.initialized) then old(objectModule.lastDeclaration) else None;
        if pending.Some? then o == Fail(RepeatedDeclarations) && objectModule.lastDeclaration == pending
        else var r := NdeclDeclaration(w, expecteds, block, locs, libraryLocs);
          if r.Ok? then o == Pass && objectModule.lastDeclaration == Some(r.value)
          else o == Fail(r.error) && objectModule.lastDeclaration.None?
      ensures old(objectModule.initialized) ==>
        methodDeclarations == old(methodDeclarations) && attrDeclarations == old(attrDeclarations)
        && objectModule.hookEnabled == old(objectModule.hookEnabled)
      ensures !old(objectModule.initialized) ==>
        methodDeclarations == old(methodDeclarations)[Owner(ObjectClass, false) := map[]][Owner(ObjectClass, true) := map[]]
        && attrDeclarations == old(attrDeclarations)[ObjectClass := map[]] && objectModule.hookEnabled
      ensures objectModule.readers == old(objectModule.readers) && objectModule.writers == old(objectModule.writers)
      ensures enabled == old(enabled) && lastArgumentErrorInfo == old(lastArgumentErrorInfo)
    {
      if !objectModule.extended {
        var e := Extend(objectModule, true);
      }
      o := objectModule.NdeclMain(w, expecteds, block, locs, libraryLocs);
    }

    /** `METHOD_DECLARATIONS[owner][name] = decl` */
    method RegisterMethod(owner: Owner, name: string, d: Declaration)
      requires Valid() && owner in methodDeclarations && d.assignedMethod.Some?
      modifies this
      ensures Valid()
      ensures methodDeclarations == old(methodDeclarations)[owner := old(methodDeclarations)[owner][name := d]]
      ensures attrDeclarations == old(attrDeclarations) && enabled == old(enabled)
      ensures lastArgumentErrorInfo == old(lastArgumentErrorInfo)
    {
      methodDeclarations := methodDeclarations[owner := methodDeclarations[owner][name := d]];
    }

    /**
     * `__neuron_check_method_added_hook`: with the hook on and a declaration
     * pending, the declaration is bound to the method and registered first;
     * then it is checked, and only a declaration that passes stops being
     * pending.
     */
    method MethodAdded(m: CheckedModule, name: string, met: MethodDef, singleton: bool) returns (o: Outcome)
      requires Valid() && m.initialized && Tracks(m)
      modifies this, m
      ensures Valid() && Tracks(m)
      ensures !old(m.hookEnabled) || old(m.lastDeclaration).None? ==> o == Pass && unchanged(this) && unchanged(m)
      ensures old(m.hookEnabled) && old(m.lastDeclaration).Some? ==>
        var owner := Owner(m.cls, singleton);
        var d := BindToMethod(old(m.lastDeclaration).value, owner, met, if singleton then Some(m.cls) else None);
        methodDeclarations == old(methodDeclarations)[owner := old(methodDeclarations)[owner][name := d]]
        && attrDeclarations == old(attrDeclarations)
        && (match HookError(d, name, met, singleton)
            case None => o == Pass && m.lastDeclaration.None?
            case Some(e) => o == Fail(e) && m.lastDeclaration == Some(d))
      ensures m.hookEnabled == old(m.hookEnabled) && m.initialized && m.extended == old(m.extended)
      ensures m.readers == old(m.readers) && m.writers == old(m.writers)
      ensures enabled == old(enabled) && lastArgumentErrorInfo == old(lastArgumentErrorInfo)
    {
      if !m.hookEnabled || m.lastDeclaration.None? {
        return Pass;
      }
      var owner := Owner(m.cls, singleton);
      var d := BindToMethod(m.lastDeclaration.value, owner, met, if singleton then Some(m.cls) else None);
      RegisterMethod(owner, name, d);
      m.SetPending(Some(d));
      var e := FindHookError(d, name, met, singleton);
      if e.Some? {
        return Fail(e.value);
      }
      m.SetPending(None);
      o := Pass;
    }

    /**
     * `__neuron_check_attr_defined`: the pending declaration, if any, gives
     * each named attribute a reader and/or writer check and is registered
     * under each name; it then stops being pending.
     */
    method AttrDefined(m: CheckedModule, used: string, names: seq<string>, useReader: bool, useWriter: bool)
      returns (o: Outcome)
      requires m.initialized && Tracks(m)
      modifies this, m
      ensures Tracks(m) && methodDeclarations == old(methodDeclarations)
      ensures enabled == old(enabled) && lastArgumentErrorInfo == old(lastArgumentErrorInfo)
      ensures m.hookEnabled == old(m.hookEnabled) && m.initialized && m.extended == old(m.extended)
      ensures old(m.lastDeclaration).None? ==> o == Pass && unchanged(this) && unchanged(m)
      ensures old(m.lastDeclaration).Some? ==>
        var d := old(m.lastDeclaration).value;
        match AttrTarget(d, used)
        case Err(e) => o == Fail(e) && unchanged(this) && unchanged(m)
        case Ok(target) =>
          o == Pass && m.lastDeclaration.None?
          && m.readers == (if useReader then RegisterAll(old(m.readers), names, target) else old(m.readers))
          && m.writers == (if useWriter then RegisterAll(old(m.writers), names, target) else old(m.writers))
          && attrDeclarations == old(attrDeclarations)[m.cls := RegisterAll(old(attrDeclarations)[m.cls], names, BindToAttributes(d, m.cls, names))]
    {
      if m.lastDeclaration.None? {
        return Pass;
      }
      var d := m.lastDeclaration.value;
      var t := AttrTarget(d, used);
      if t.Err? {
        return Fail(t.error);
      }
      m.RegisterAccessors(names, t.value, useReader, useWriter);
      // The table entries share one declaration object, which ends up bound to the last name.
      RegisterAttributes(m.cls, names, BindToAttributes(d, m.cls, names));
      m.SetPending(None);
      o := Pass;
    }

    /** The loop of `__neuron_check_attr_defined` that registers each attribute name in `ATTR_DECLARATIONS`. */
    method RegisterAttributes(cls: ClassRef, names: seq<string>, bound: Declaration)
      requires cls in attrDeclarations
      modifies this
      ensures attrDeclarations == old(attrDeclarations)[cls := RegisterAll(old(attrDeclarations)[cls], names, bound)]
      ensures methodDeclarations == old(methodDeclarations) && enabled == old(enabled)
      ensures lastArgumentErrorInfo == old(lastArgumentErrorInfo)
    {
      var table := attrDeclarations[cls];
      var j := 0;
      while j < |names|
        invariant 0 <= j <= |names|
        invariant table == RegisterAll(old(attrDeclarations)[cls], names[..j], bound)
      {
        assert names[..j + 1][..j] == names[..j];
        table := table[names[j] := bound];
        j := j + 1;
      }
      assert names[..|names|] == names;
      attrDeclarations := attrDeclarations[cls := table];
    }

    /**
     * `attr`, `attr_reader`, `attr_writer` and `attr_accessor`: the hook is
     * off while Ruby defines the methods (so they do not take the pending
     * declaration), the attribute wrappers are made, and the hook is on
     * again whatever happened. `attr(name, assignable)` passes its one name.
     */
    method DefineAttributes(m: CheckedModule, kind: AttrKind, names: seq<string>) returns (o: Outcome)
      requires m.initialized && Tracks(m)
      requires kind.Attr? ==> |names| == 1
      modifies this, m
      ensures m.hookEnabled && Tracks(m) && methodDeclarations == old(methodDeclarations)
      ensures m.initialized && m.extended == old(m.extended)
      ensures enabled == old(enabled) && lastArgumentErrorInfo == old(lastArgumentErrorInfo)
      ensures old(m.lastDeclaration).None? ==>
        (o == Pass && unchanged(this) && m.readers == old(m.readers) && m.writers == old(m.writers) && m.lastDeclaration.None?)
      ensures old(m.lastDeclaration).Some? ==>
        var d := old(m.lastDeclaration).value;
        match AttrTarget(d, AttrMethodName(kind))
        case Err(e) =>
          o == Fail(e) && m.lastDeclaration == old(m.lastDeclaration) && attrDeclarations == old(attrDeclarations)
          && m.readers == old(m.readers) && m.writers == old(m.writers)
        case Ok(target) =>
          o == Pass && m.lastDeclaration.None?
          && m.readers == (if DefinesReader(kind) then RegisterAll(old(m.readers), names, target) else old(m.readers))
          && m.writers == (if DefinesWriter(kind) then RegisterAll(old(m.writers), names, target) else old(m.writers))
          && attrDeclarations == old(attrDeclarations)[m.cls := RegisterAll(old(attrDeclarations)[m.cls], names, BindToAttributes(d, m.cls, names))]
    {
      m.hookEnabled := false;
      o := AttrDefined(m, AttrMethodName(kind), names, DefinesReader(kind), DefinesWriter(kind));
      m.hookEnabled := true;
    }

    /** A reader wrapper, as intended: the stored value, once its check passes. */
    method ReadAttribute(w: World, m: CheckedModule, obj: Value, name: string, stored: Value) returns (r: Result<Value>)
      ensures r == Reader(w, m.readers, obj, name, stored)
      ensures name !in m.readers ==> r == Ok(stored)
      ensures name in m.readers ==>
        match AttrCheck(w, m.readers[name], obj, name, stored, "was")
        case Pass => r == Ok(stored)
        case Fail(e) => r == Err(e)
    {
      if name !in m.readers {
        return Ok(stored);
      }
      var o := AttrCheck(w, m.readers[name], obj, name, stored, "was");
      if o.Fail? {
        return Err(o.error);
      }
      r := Ok(stored);
    }

    /** A writer wrapper: the value is checked before it is stored, and a refused one is not stored. */
    method WriteAttribute(w: World, m: CheckedModule, obj: Value, name: string, stored: Value, v: Value)
      returns (o: Outcome, newStored: Value)
      ensures name !in m.writers ==> o == Pass
      ensures name in m.writers ==> o == AttrCheck(w, m.writers[name], obj, name, v, "set")
      ensures newStored == if o.Pass? then v else stored
    {
      if name in m.writers {
        o := AttrCheck(w, m.writers[name], obj, name, v, "set");
      } else {
        o := Pass;
      }
      newStored := if o.Pass? then v else stored;
    }

    /** `trace_method_call`, its loop over the parameters as written there. */
    method TraceMethodCall(w: World, receiver: Value, d: Declaration, bindings: seq<Value>) returns (o: Outcome)
      requires d.assignedMethod.Some? && BindingsFit(d.assignedMethod.value.params, bindings)
      modifies this
      ensures o == CallCheck(w, receiver, d, bindings)
      ensures lastArgumentErrorInfo ==
        if ArgumentRefused(w, d, bindings) then Some((receiver, d.assignedMethod.value.name)) else old(lastArgumentErrorInfo)
      ensures methodDeclarations == old(methodDeclarations) && attrDeclarations == old(attrDeclarations) && enabled == old(enabled)
    {
      var f, paramValues := ScanArguments(w, d, bindings);
      if f.Err? {
        return Fail(f.error);
      }
      if f.value.Some? {
        lastArgumentErrorInfo := Some((receiver, d.assignedMethod.value.name));
        var failure := f.value.value;
        return Violation(w, Some(d), failure.matcher, failure.caption, failure.value, "was");
      }
      o := CondCheck(w, d.precond, "precond", receiver, d.precondAllowInstanceMethod, paramValues, []);
    }

    /** `trace_method_return`: skipped once after a refused argument of the same call; otherwise the return check. */
    method TraceMethodReturn(w: World, receiver: Value, d: Declaration, bindings: seq<Value>, ret: Value) returns (o: Outcome)
      requires d.assignedMethod.Some? && |bindings| == |d.assignedMethod.value.params|
      modifies this
      ensures old(lastArgumentErrorInfo) == Some((receiver, d.assignedMethod.value.name)) ==>
        o == Pass && lastArgumentErrorInfo.None?
      ensures old(lastArgumentErrorInfo) != Some((receiver, d.assignedMethod.value.name)) ==>
        o == ReturnCheck(w, receiver, d, bindings, ret) && lastArgumentErrorInfo == old(lastArgumentErrorInfo)
      ensures methodDeclarations == old(methodDeclarations) && attrDeclarations == old(attrDeclarations) && enabled == old(enabled)
    {
      var met := d.assignedMethod.value;
      if lastArgumentErrorInfo == Some((receiver, met.name)) {
        lastArgumentErrorInfo := None;
        return Pass;
      }
      var paramValues: map<string, Value> := map[];
      var i := 0;
      while i < |met.params|
        invariant 0 <= i <= |met.params|
        invariant paramValues == ParamValues(met.params, bindings, i)
      {
        paramValues := paramValues[met.params[i].name := bindings[i]];
        i := i + 1;
      }
      if d.returnMatcher.Some? {
        var ok := Match(w, d.returnMatcher.value, ret, receiver);
        if ok.Err? {
          return Fail(ok.error);
        }
        if !ok.value {
          return Violation(w, Some(d), d.returnMatcher.value, "return value of `" + NameOnly(d) + "'", ret, "was");
        }
      }
      o := CondCheck(w, d.postcond, "postcond", receiver, d.postcondAllowInstanceMethod, paramValues, [ret]);
    }

    /** The trace point's `:call` event: only a declared method is checked, and only while checks are enabled. */
    method OnCall(w: World, owner: Owner, name: string, receiver: Value, bindings: seq<Value>) returns (o: Outcome)
      requires Valid()
      requires owner in methodDeclarations && name in methodDeclarations[owner] ==>
        BindingsFit(methodDeclarations[owner][name].assignedMethod.value.params, bindings)
      modifies this
      ensures Valid()
      ensures !old(enabled) || owner !in old(methodDeclarations) || name !in old(methodDeclarations)[owner] ==>
        o == Pass && unchanged(this)
      ensures old(enabled) && owner in old(methodDeclarations) && name in old(methodDeclarations)[owner] ==>
        var d := old(methodDeclarations)[owner][name];
        o == CallCheck(w, receiver, d, bindings)
        && lastArgumentErrorInfo == if ArgumentRefused(w, d, bindings) then Some((receiver, d.assignedMethod.value.name)) else old(lastArgumentErrorInfo)
      ensures methodDeclarations == old(methodDeclarations) && attrDeclarations == old(attrDeclarations) && enabled == old(enabled)
    {
      if !enabled || owner !in methodDeclarations || name !in methodDeclarations[owner] {
        return Pass;
      }
      o := TraceMethodCall(w, receiver, methodDeclarations[owner][name], bindings);
    }

    /** The trace point's `:return` event. */
    method OnReturn(w: World, owner: Owner, name: string, receiver: Value, bindings: seq<Value>, ret: Value) returns (o: Outcome)
      requires Valid()
      requires owner in methodDeclarations && name in methodDeclarations[owner] ==>
        |bindings| == |methodDeclarations[owner][name].assignedMethod.value.params|
      modifies this
      ensures Valid()
      ensures !old(enabled) || owner !in old(methodDeclarations) || name !in old(methodDeclarations)[owner] ==>
        o == Pass && unchanged(this)
      ensures old(enabled) && owner in old(methodDeclarations) && name in old(methodDeclarations)[owner] ==>
        var d := old(methodDeclarations)[owner][name];
        if old(lastArgumentErrorInfo) == Some((receiver, d.assignedMethod.value.name)) then o == Pass && lastArgumentErrorInfo.None?
        else o == ReturnCheck(w, receiver, d, bindings, ret) && lastArgumentErrorInfo == old(lastArgumentErrorInfo)
      ensures methodDeclarations == old(methodDeclarations) && attrDeclarations == old(attrDeclarations) && enabled == old(enabled)
    {
      if !enabled || owner !in methodDeclarations || name !in methodDeclarations[owner] {
        return Pass;
      }
      o := TraceMethodReturn(w, receiver, methodDeclarations[owner][name], bindings, ret);
    }

    /** `NeuronCheck.disable` */
    method Disable()
      modifies this
      ensures !enabled
      ensures methodDeclarations == old(methodDeclarations) && attrDeclarations == old(attrDeclarations)
      ensures lastArgumentErrorInfo == old(lastArgumentErrorInfo)
    {
      enabled := false;
    }

    /** `NeuronCheck.enable` */
    method Enable()
      modifies this
      ensures enabled
      ensures methodDeclarations == old(methodDeclarations) && attrDeclarations == old(attrDeclarations)
      ensures lastArgumentErrorInfo == old(lastArgumentErrorInfo)
    {
      enabled := true;
    }

    /**
     * `NeuronCheck.disable { ... }`: the block runs with checks off, and
     * checks are on afterwards whatever they were before.
     */
    method DisableDuring() returns (duringBlock: bool)
      modifies this
      ensures !duringBlock && enabled
      ensures methodDeclarations == old(methodDeclarations) && attrDeclarations == old(attrDeclarations)
      ensures lastArgumentErrorInfo == old(lastArgumentErrorInfo)
    {
      Disable();
      duringBlock := enabled;
      Enable();
    }

    /** `NeuronCheck.enable { ... }`: the block runs with checks on, and checks are off afterwards. */
    method EnableDuring() returns (duringBlock: bool)
      modifies this
      ensures duringBlock && !enabled
      ensures methodDeclarations == old(methodDeclarations) && attrDeclarations == old(attrDeclarations)
      ensures lastArgumentErrorInfo == old(lastArgumentErrorInfo)
    {
      Enable();
      duringBlock := enabled;
      Disable();
    }
  }

  /**
   * The loop of `trace_method_call` over the parameters: it binds each
   * parameter's name to its value and checks it, stopping at the first one
   * refused or the first error.
   */
  method ScanArguments(w: World, d: Declaration, bindings: seq<Value>)
    returns (f: Result<Option<ArgFailure>>, paramValues: map<string, Value>)
    requires d.assignedMethod.Some? && BindingsFit(d.assignedMethod.value.params, bindings)
    ensures f == FirstArgumentFailure(w, d, d.assignedMethod.value.params, bindings, 0)
    ensures f == Ok(None) ==> paramValues == ParamValues(d.assignedMethod.value.params, bindings, |bindings|)
  {
    var params := d.assignedMethod.value.params;
    paramValues := map[];
    var i := 0;
    while i < |params|
      invariant 0 <= i <= |params|
      invariant paramValues == ParamValues(params, bindings, i)
      invariant FirstArgumentFailure(w, d, params, bindings, 0) == FirstArgumentFailure(w, d, params, bindings, i)
    {
      paramValues := paramValues[params[i].name := bindings[i]];
      f := CheckParam(w, d, params, bindings, i);
      if f.Err? || f.value.Some? {
        return;
      }
      i := i + 1;
    }
    f := Ok(None);
  }

  /** The check of one parameter, with the loops over a rest or keyword-rest parameter's values. */
  method CheckParam(w: World, d: Declaration, params: seq<Param>, bindings: seq<Value>, i: nat)
    returns (f: Result<Option<ArgFailure>>)
    requires i < |params| && BindingsFit(params, bindings)
    ensures f == ParamFailure(w, d, params, bindings, i)
  {
    if i >= |d.argMatchers| {
      return Ok(None);
    }
    var m := d.argMatchers[i];
    var p := params[i];
    var v := bindings[i];
    if p.kind == KeyRest {
      var values := EntryValues(v.entries);
      var k := FindRefused(w, m, values);
      if k.Err? {
        return Err(k.error);
      }
      f := Ok(if k.value.Some? then Some(ArgFailure(m, ArgumentCaption(d, p, 0), values[k.value.value])) else None);
    } else if p.kind == Rest {
      var k := FindRefused(w, m, v.items);
      if k.Err? {
        return Err(k.error);
      }
      f := Ok(if k.value.Some? then Some(ArgFailure(m, ArgumentCaption(d, p, i + 1 + k.value.value), v.items[k.value.value])) else None);
    } else {
      var ok := Match(w, m, v, ArgumentCheckReceiver);
      if ok.Err? {
        return Err(ok.error);
      }
      f := Ok(if ok.value then None else Some(ArgFailure(m, ArgumentCaption(d, p, i + 1), v)));
    }
  }

  /** `each_with_index` / `each_pair` over the values, stopping at the first one refused. */
  method FindRefused(w: World, m: Matcher, items: seq<Value>) returns (r: Result<Option<nat>>)
    ensures r == FirstRefused(w, m, items, 0)
  {
    var i := 0;
    while i < |items|
      invariant 0 <= i <= |items|
      invariant FirstRefused(w, m, items, 0) == FirstRefused(w, m, items, i)
    {
      var ok := Match(w, m, items[i], ArgumentCheckReceiver);
      if ok.Err? {
        return Err(ok.error);
      }
      if !ok.value {
        return Ok(Some(i));
      }
      i := i + 1;
    }
    r := Ok(None);
  }

  /** The checks of `__neuron_check_method_added_hook`, its loop over the parameters as the hook writes it. */
  method FindHookError(d: Declaration, name: string, met: MethodDef, singleton: bool) returns (e: Option<Error>)
    ensures e == HookError(d, name, met, singleton)
  {
    if |d.argMatchers| > |met.params| {
      return Some(DeclarationError("given arguments number of #" + name + " greater than method definition - expected "
                                   + IntToString(|met.params|) + " args, but " + IntToString(|d.argMatchers|) + " args were declared"));
    }
    var i := 0;
    while i < |met.params|
      invariant 0 <= i <= |met.params|
      invariant FirstBadBlockParam(d, met.params, 0) == FirstBadBlockParam(d, met.params, i)
    {
      if !BlockParamAllowed(d, met.params, i) {
        return Some(DeclarationError(Utils.Ordinalize(i + 1) + " argument `" + met.params[i].name + "' of `" + NameOnly(d)
                                     + "' is block argument - it can be specified only keyword `any' or `block'"));
      }
      i := i + 1;
    }
    if !singleton && name == "initialize" && d.returnMatcher.Some? {
      return Some(DeclarationError("returns declaration cannot be used with `#initialize' method"));
    }
    e := None;
  }

  // ---------------------------------------------------------------------
  // The export of every declaration
  // ---------------------------------------------------------------------

  /** One class's entry in a section of the export: its key (nil in Ruby when there is none) and its members, in insertion order. */
  datatype Group = Group(key: Option<string>, members: seq<Field>)

  /** The three sections of `get_declarations_as_json`, in the order Ruby writes them. */
  datatype Export = Export(instanceMethods: seq<Group>, singletonMethods: seq<Group>, attributes: seq<Group>)

  const EmptyExport := Export([], [], [])

  /** The position of the group with `key`, if there is one. */
  function FindGroup(groups: seq<Group>, key: Option<string>): (r: Option<nat>)
    ensures r.Some? ==> r.value < |groups| && groups[r.value].key == key
                        && forall j :: 0 <= j < r.value ==> groups[j].key != key
    ensures r.None? ==> forall j :: 0 <= j < |groups| ==> groups[j].key != key
  {
    if |groups| == 0 then None
    else if groups[0].key == key then Some(0)
    else match FindGroup(groups[1..], key)
      case None => None
      case Some(i) => Some(i + 1)
  }

  /** `section[key] ||= {}; section[key][name] = meta` */
  function PutMember(groups: seq<Group>, key: Option<string>, name: string, meta: Json): (r: seq<Group>)
    ensures forall j :: 0 <= j < |groups| ==> j < |r| && r[j].key == groups[j].key
    ensures forall j :: |groups| <= j < |r| ==> r[j].key == key
  {
    match FindGroup(groups, key)
    case None => groups + [Group(key, [Field(name, meta)])]
    case Some(i) => groups[i := groups[i].(members := Put(groups[i].members, name, meta))]
  }

  /** `section[key][name]`, nil when either is missing */
  function LookupMember(groups: seq<Group>, key: Option<string>, name: string): Option<Json>
  {
    match FindGroup(groups, key)
    case None => None
    case Some(i) => Lookup(groups[i].members, name)
  }

  lemma FindGroupSameKeys(g1: seq<Group>, g2: seq<Group>, key: Option<string>)
    requires |g1| == |g2| && forall j :: 0 <= j < |g1| ==> g1[j].key == g2[j].key
    ensures FindGroup(g1, key) == FindGroup(g2, key)
  {
    var r1, r2 := FindGroup(g1, key), FindGroup(g2, key);
    if r1.Some? && r2.Some? {
      assert !(r1.value < r2.value) && !(r2.value < r1.value);
    }
  }

  lemma FindGroupAppend(groups: seq<Group>, g: Group, key: Option<string>)
    ensures FindGroup(groups + [g], key) ==
      if FindGroup(groups, key).Some? then FindGroup(groups, key)
      else if g.key == key then Some(|groups|) else None
  {
    var all := groups + [g];
    var r, ra := FindGroup(groups, key), FindGroup(all, key);
    assert forall j :: 0 <= j < |groups| ==> all[j] == groups[j];
    assert all[|groups|] == g;
    if r.Some? {
      assert all[r.value].key == key;
      assert ra.Some? && !(r.value < ra.value) && !(ra.value < r.value);
    } else if ra.Some? {
      assert ra.value == |groups|;
    }
  }

  /**
   * Writing a member makes reading it give the value written, and leaves every
   * other class's and every other name's entry as it was.
   */
  lemma PutMemberThenLookup(groups: seq<Group>, key: Option<string>, name: string, meta: Json,
                            key2: Option<string>, name2: string)
    ensures LookupMember(PutMember(groups, key, name, meta), key, name) == Some(meta)
    ensures key2 != key || name2 != name ==>
      LookupMember(PutMember(groups, key, name, meta), key2, name2) == LookupMember(groups, key2, name2)
  {
    var r := PutMember(groups, key, name, meta);
    match FindGroup(groups, key)
    case None =>
      var g := Group(key, [Field(name, meta)]);
      assert r == groups + [g];
      FindGroupAppend(groups, g, key);
      FindGroupAppend(groups, g, key2);
      assert r[|groups|] == g;
      assert Lookup(g.members, name) == Some(meta);
      if key2 == key && name2 != name {
        assert g.members[1..] == [];
        assert Lookup(g.members, name2) == None;
      } else if key2 != key && FindGroup(groups, key2).Some? {
        assert r[FindGroup(groups, key2).value] == groups[FindGroup(groups, key2).value];
      }
    case Some(i) =>
      FindGroupSameKeys(groups, r, key);
      FindGroupSameKeys(groups, r, key2);
      PutThenLookup(groups[i].members, name, meta, name2);
      if FindGroup(groups, key2).Some? && key2 != key {
        assert FindGroup(groups, key2).value != i;
      }
  }

  /** Every group has a key: a section Ruby can write with string keys only. */
  predicate KeysNamed(groups: seq<Group>)
  {
    forall j :: 0 <= j < |groups| ==> groups[j].key.Some?
  }

  /** The export's key for a class: its name, else its `inspect` unless unnamed classes are ignored. */
  function ModuleKey(w: World, c: ClassRef, ignoreUnnamed: bool): (k: Option<string>)
    ensures c.name.Some? ==> k == c.name
    ensures c.name.None? ==> (k.None? <==> ignoreUnnamed)
  {
    if c.name.Some? then c.name
    else if ignoreUnnamed then None
    else Some(Inspect(w, VClass(c)))
  }

  /** The class a method declaration is exported under: the original class of a singleton method, else its owner. */
  function MethodTarget(d: Declaration): Option<ClassRef>
  {
    if AssignedToSingletonMethod(d) then d.assignedSingletonOriginalClass
    else if d.assignedClassOrModule.Some? then Some(d.assignedClassOrModule.value.cls)
    else None
  }

  /** One row of `METHOD_DECLARATIONS`: skipped when it has no key, else written to its section. */
  function ExportMethod(w: World, e: Export, name: string, d: Declaration, ignoreUnnamed: bool): (r: Result<Export>)
    ensures r.Ok? ==> r.value.attributes == e.attributes
    ensures r.Ok? && AssignedToSingletonMethod(d) ==> r.value.instanceMethods == e.instanceMethods
    ensures r.Ok? && !AssignedToSingletonMethod(d) ==> r.value.singletonMethods == e.singletonMethods
  {
    match MethodTarget(d)
    case None => Err(RubyError("NoMethodError", "undefined method `name' for nil"))
    case Some(target) =>
      var key := ModuleKey(w, target, ignoreUnnamed);
      if key.None? then Ok(e)
      else
        var meta :- DeclarationMeta(w, d);
        if AssignedToSingletonMethod(d) then Ok(e.(singletonMethods := PutMember(e.singletonMethods, key, name, JObject(meta))))
        else Ok(e.(instanceMethods := PutMember(e.instanceMethods, key, name, JObject(meta))))
  }

  /** The method rows, in the tables' order. */
  function ExportMethods(w: World, e: Export, rows: seq<(string, Declaration)>, ignoreUnnamed: bool): Result<Export>
  {
    if |rows| == 0 then Ok(e)
    else
      var before :- ExportMethods(w, e, rows[..|rows| - 1], ignoreUnnamed);
      ExportMethod(w, before, rows[|rows| - 1].0, rows[|rows| - 1].1, ignoreUnnamed)
  }

  /** The attribute rows of one class, all under `key`. */
  function ExportAttributeRows(w: World, e: Export, key: Option<string>, rows: seq<(string, Declaration)>): (r: Result<Export>)
    ensures r.Ok? ==> r.value.instanceMethods == e.instanceMethods && r.value.singletonMethods == e.singletonMethods
  {
    if |rows| == 0 then Ok(e)
    else
      var before :- ExportAttributeRows(w, e, key, rows[..|rows| - 1]);
      var meta :- DeclarationMeta(w, rows[|rows| - 1].1);
      Ok(before.(attributes := PutMember(before.attributes, key, rows[|rows| - 1].0, JObject(meta))))
  }

  /** The `ATTR_DECLARATIONS` loop as written: with no `if key`, a class without a key is written under nil. */
  function ExportAttributesAsWritten(w: World, e: Export, tables: seq<(ClassRef, seq<(string, Declaration)>)>, ignoreUnnamed: bool)
    : Result<Export>
  {
    if |tables| == 0 then Ok(e)
    else
      var before :- ExportAttributesAsWritten(w, e, tables[..|tables| - 1], ignoreUnnamed);
      var (cls, rows) := tables[|tables| - 1];
      ExportAttributeRows(w, before, ModuleKey(w, cls, ignoreUnnamed), rows)
  }

  /** The `ATTR_DECLARATIONS` loop as the method loop does it: a class without a key is skipped. */
  function ExportAttributes(w: World, e: Export, tables: seq<(ClassRef, seq<(string, Declaration)>)>, ignoreUnnamed: bool)
    : Result<Export>
  {
    if |tables| == 0 then Ok(e)
    else
      var before :- ExportAttributes(w, e, tables[..|tables| - 1], ignoreUnnamed);
      var (cls, rows) := tables[|tables| - 1];
      var key := ModuleKey(w, cls, ignoreUnnamed);
      if key.None? then Ok(before) else ExportAttributeRows(w, before, key, rows)
  }

  /** `get_declarations_as_json`, with the attribute export corrected. */
  function DeclarationsExport(w: World, methodRows: seq<(string, Declaration)>,
                              attrTables: seq<(ClassRef, seq<(string, Declaration)>)>, ignoreUnnamed: bool): (r: Result<Export>)
    ensures !ignoreUnnamed ==> r == DeclarationsExportAsWritten(w, methodRows, attrTables, false)
    ensures ExportMethods(w, EmptyExport, methodRows, ignoreUnnamed).Err? ==> r == Err(ExportMethods(w, EmptyExport, methodRows, ignoreUnnamed).error)
  {
    var e :- ExportMethods(w, EmptyExport, methodRows, ignoreUnnamed);
    AsWrittenAgreesWithoutIgnoring(w, e, attrTables);
    ExportAttributes(w, e, attrTables, ignoreUnnamed)
  }

  /** `get_declarations_as_json` as written. */
  function DeclarationsExportAsWritten(w: World, methodRows: seq<(string, Declaration)>,
                                       attrTables: seq<(ClassRef, seq<(string, Declaration)>)>, ignoreUnnamed: bool): Result<Export>
  {
    var e :- ExportMethods(w, EmptyExport, methodRows, ignoreUnnamed);
    ExportAttributesAsWritten(w, e, attrTables, ignoreUnnamed)
  }

  /** The last method row exported is found under its class and name, in its own section. */
  lemma ExportedMethodFound(w: World, e: Export, rows: seq<(string, Declaration)>, ignoreUnnamed: bool)
    requires |rows| > 0 && ExportMethods(w, e, rows, ignoreUnnamed).Ok?
    requires var d := rows[|rows| - 1].1; MethodTarget(d).Some? && ModuleKey(w, MethodTarget(d).value, ignoreUnnamed).Some?
    ensures var (name, d) := rows[|rows| - 1];
      var r := ExportMethods(w, e, rows, ignoreUnnamed).value;
      var key := ModuleKey(w, MethodTarget(d).value, ignoreUnnamed);
      DeclarationMeta(w, d).Ok?
      && LookupMember(if AssignedToSingletonMethod(d) then r.singletonMethods else r.instanceMethods, key, name)
         == Some(JObject(DeclarationMeta(w, d).value))
  {
    var (name, d) := rows[|rows| - 1];
    var before := ExportMethods(w, e, rows[..|rows| - 1], ignoreUnnamed).value;
    var key := ModuleKey(w, MethodTarget(d).value, ignoreUnnamed);
    var meta := DeclarationMeta(w, d).value;
    if AssignedToSingletonMethod(d) {
      PutMemberThenLookup(before.singletonMethods, key, name, JObject(meta), key, name);
    } else {
      PutMemberThenLookup(before.instanceMethods, key, name, JObject(meta), key, name);
    }
  }

  /** A method of an unnamed class leaves the export as it was when unnamed classes are ignored. */
  lemma IgnoredMethodSkipped(w: World, e: Export, name: string, d: Declaration)
    requires MethodTarget(d).Some? && MethodTarget(d).value.name.None?
    ensures ExportMethod(w, e, name, d, true) == Ok(e)
  {
  }

  /** The method sections only ever get groups with keys. */
  lemma {:induction false} MethodKeysNamed(w: World, e: Export, rows: seq<(string, Declaration)>, ignoreUnnamed: bool)
    requires KeysNamed(e.instanceMethods) && KeysNamed(e.singletonMethods)
    requires ExportMethods(w, e, rows, ignoreUnnamed).Ok?
    ensures KeysNamed(ExportMethods(w, e, rows, ignoreUnnamed).value.instanceMethods)
    ensures KeysNamed(ExportMethods(w, e, rows, ignoreUnnamed).value.singletonMethods)
    ensures ExportMethods(w, e, rows, ignoreUnnamed).value.attributes == e.attributes
  {
    if |rows| > 0 {
      MethodKeysNamed(w, e, rows[..|rows| - 1], ignoreUnnamed);
      var before := ExportMethods(w, e, rows[..|rows| - 1], ignoreUnnamed).value;
      ExportMethodKeysNamed(w, before, rows[|rows| - 1].0, rows[|rows| - 1].1, ignoreUnnamed);
    }
  }

  /** One method row keeps both method sections keyed. */
  lemma ExportMethodKeysNamed(w: World, e: Export, name: string, d: Declaration, ignoreUnnamed: bool)
    requires KeysNamed(e.instanceMethods) && KeysNamed(e.singletonMethods)
    requires ExportMethod(w, e, name, d, ignoreUnnamed).Ok?
    ensures KeysNamed(ExportMethod(w, e, name, d, ignoreUnnamed).value.instanceMethods)
    ensures KeysNamed(ExportMethod(w, e, name, d, ignoreUnnamed).value.singletonMethods)
  {
  }

  lemma {:induction false} AttributeRowsKeyed(w: World, e: Export, key: Option<string>, rows: seq<(string, Declaration)>)
    requires KeysNamed(e.attributes) && key.Some?
    requires ExportAttributeRows(w, e, key, rows).Ok?
    ensures KeysNamed(ExportAttributeRows(w, e, key, rows).value.attributes)
  {
    if |rows| > 0 {
      AttributeRowsKeyed(w, e, key, rows[..|rows| - 1]);
    }
  }

  /** The corrected attribute export only ever gets groups with keys. */
  lemma {:induction false} AttributeKeysNamed(w: World, e: Export, tables: seq<(ClassRef, seq<(string, Declaration)>)>, ignoreUnnamed: bool)
    requires KeysNamed(e.attributes)
    requires ExportAttributes(w, e, tables, ignoreUnnamed).Ok?
    ensures KeysNamed(ExportAttributes(w, e, tables, ignoreUnnamed).value.attributes)
  {
    if |tables| > 0 {
      AttributeKeysNamed(w, e, tables[..|tables| - 1], ignoreUnnamed);
      var before := ExportAttributes(w, e, tables[..|tables| - 1], ignoreUnnamed).value;
      var (cls, rows) := tables[|tables| - 1];
      var key := ModuleKey(w, cls, ignoreUnnamed);
      if key.Some? {
        AttributeRowsKeyed(w, before, key, rows);
      }
    }
  }

  lemma {:induction false} AttributeMethodsUnchanged(w: World, e: Export, tables: seq<(ClassRef, seq<(string, Declaration)>)>, ignoreUnnamed: bool)
    requires ExportAttributes(w, e, tables, ignoreUnnamed).Ok?
    ensures ExportAttributes(w, e, tables, ignoreUnnamed).value.instanceMethods == e.instanceMethods
    ensures ExportAttributes(w, e, tables, ignoreUnnamed).value.singletonMethods == e.singletonMethods
  {
    if |tables| > 0 {
      AttributeMethodsUnchanged(w, e, tables[..|tables| - 1], ignoreUnnamed);
    }
  }

  /** Every section of the corrected export has string keys only. */
  lemma ExportKeysNamed(w: World, methodRows: seq<(string, Declaration)>,
                        attrTables: seq<(ClassRef, seq<(string, Declaration)>)>, ignoreUnnamed: bool)
    requires DeclarationsExport(w, methodRows, attrTables, ignoreUnnamed).Ok?
    ensures var r := DeclarationsExport(w, methodRows, attrTables, ignoreUnnamed).value;
      KeysNamed(r.instanceMethods) && KeysNamed(r.singletonMethods) && KeysNamed(r.attributes)
  {
    var e := ExportMethods(w, EmptyExport, methodRows, ignoreUnnamed).value;
    MethodKeysNamed(w, EmptyExport, methodRows, ignoreUnnamed);
    AttributeKeysNamed(w, e, attrTables, ignoreUnnamed);
    AttributeMethodsUnchanged(w, e, attrTables, ignoreUnnamed);
  }

  /** Without `ignore_unnamed_modules` every class has a key, and the export as written is the corrected one. */
  lemma {:induction false} AsWrittenAgreesWithoutIgnoring(w: World, e: Export, tables: seq<(ClassRef, seq<(string, Declaration)>)>)
    ensures ExportAttributesAsWritten(w, e, tables, false) == ExportAttributes(w, e, tables, false)
  {
    if |tables| > 0 {
      AsWrittenAgreesWithoutIgnoring(w, e, tables[..|tables| - 1]);
    }
  }

  /**
   * The export as written: an attribute of an unnamed class, with unnamed
   * classes ignored, is written to `attributes` under a nil key.
   */
  lemma UnnamedAttributeUnderNilKey(w: World, cls: ClassRef, name: string, d: Declaration)
    requires cls.name.None? && DeclarationMeta(w, d).Ok?
    ensures ExportAttributesAsWritten(w, EmptyExport, [(cls, [(name, d)])], true)
         == Ok(Export([], [], [Group(None, [Field(name, JObject(DeclarationMeta(w, d).value))])]))
    ensures !KeysNamed(ExportAttributesAsWritten(w, EmptyExport, [(cls, [(name, d)])], true).value.attributes)
  {
    var tables := [(cls, [(name, d)])];
    assert tables[..0] == [];
    var rows := [(name, d)];
    assert rows[..0] == [];
    var meta := DeclarationMeta(w, d).value;
    assert ModuleKey(w, cls, true) == None;
    assert PutMember([], None, name, JObject(meta)) == [Group(None, [Field(name, JObject(meta))])];
    assert ExportAttributeRows(w, EmptyExport, None, rows) == Ok(Export([], [], [Group(None, [Field(name, JObject(meta))])]));
    var r := ExportAttributesAsWritten(w, EmptyExport, tables, true);
    assert ExportAttributesAsWritten(w, EmptyExport, tables[..0], true) == Ok(EmptyExport);
    assert r == ExportAttributeRows(w, EmptyExport, ModuleKey(w, cls, true), rows);
    assert r == Ok(Export([], [], [Group(None, [Field(name, JObject(meta))])]));
    assert r.value.attributes[0].key.None?;
  }

  /** The corrected export leaves that attribute out, as the method loop does with methods of unnamed classes. */
  lemma UnnamedAttributeIgnored(w: World, cls: ClassRef, name: string, d: Declaration)
    requires cls.name.None?
    ensures ExportAttributes(w, EmptyExport, [(cls, [(name, d)])], true) == Ok(EmptyExport)
  {
    var tables := [(cls, [(name, d)])];
    assert tables[..0] == [];
  }
}
