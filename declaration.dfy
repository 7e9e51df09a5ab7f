/**
 * Declarations: what one `ndecl` says about the next method or attribute,
 * the declaration block's commands (`args`, `returns`, `precond`,
 * `postcond`, `val`), the shorthand form `ndecl A, B => R`, the names a
 * declaration is shown under, and the per-class state that holds the
 * declaration until the method it belongs to is defined.
 *
 * A declaration is a value.  In NeuronCheck it is one mutable object that
 * the tables, the pending slot and the attribute wrappers all share; the
 * model stores the finished value in each of those places.
 */
module Declarations {
  import opened Errors
  import opened Text
  import opened Values
  import opened Matchers
  import CondBlocks

  /**
   * A precondition or postcondition block: user code.  It is described by
   * the steps it takes given the parameter values and the block arguments
   * (none for a precondition, the return value for a postcondition), and by
   * its `source_location`.
   */
  datatype Cond = Cond(steps: (map<string, Value>, seq<Value>) -> seq<CondBlocks.CondStep>,
                       sourceFile: string, sourceLine: int)

  datatype Declaration = Declaration(
    argMatchers: seq<Matcher>,
    returnMatcher: Option<Matcher>,
    attrMatcher: Option<Matcher>,
    precond: Option<Cond>,
    precondAllowInstanceMethod: bool,
    postcond: Option<Cond>,
    postcondAllowInstanceMethod: bool,
    assignedClassOrModule: Option<Owner>,
    assignedMethod: Option<MethodDef>,
    assignedSingletonOriginalClass: Option<ClassRef>,
    assignedAttributeName: Option<string>,
    shorthand: bool,
    declaredCallerLocations: Option<Locations>)

  /** `Declaration.new` */
  const NewDeclaration := Declaration([], None, None, None, false, None, false, None, None, None, None, false, None)

  predicate IsAttribute(d: Declaration)
  {
    d.assignedAttributeName.Some?
  }

  /** A method defined at the top level is an instance method of Object. */
  predicate AssignedToToplevelMethod(d: Declaration)
  {
    d.assignedClassOrModule == Some(Owner(ObjectClass, false))
  }

  predicate AssignedToSingletonMethod(d: Declaration)
  {
    d.assignedSingletonOriginalClass.Some?
  }

  /** `Module#name`; a singleton class has none. */
  function OwnerName(o: Owner): Option<string>
  {
    if o.singleton then None else o.cls.name
  }

  // ---------------------------------------------------------------------
  // Names and signatures
  // ---------------------------------------------------------------------

  /**
   * `signature_caption_name_only`: `Foo#attr` for an attribute, the bare
   * name for a top-level method, `Foo.name` for a singleton method and
   * `Foo#name` for an instance method; nothing before the method is bound.
   */
  function SignatureCaptionNameOnly(d: Declaration): (r: Option<string>)
    ensures r.Some? <==> d.assignedClassOrModule.Some? && (d.assignedMethod.Some? || IsAttribute(d))
  {
    if d.assignedClassOrModule.Some? && (d.assignedMethod.Some? || IsAttribute(d)) then
      if IsAttribute(d) then
        Some(Interp(OwnerName(d.assignedClassOrModule.value)) + "#" + d.assignedAttributeName.value)
      else if AssignedToToplevelMethod(d) then
        Some(d.assignedMethod.value.name)
      else if AssignedToSingletonMethod(d) then
        Some(Interp(d.assignedSingletonOriginalClass.value.name) + "." + d.assignedMethod.value.name)
      else
        Some(Interp(OwnerName(d.assignedClassOrModule.value)) + "#" + d.assignedMethod.value.name)
    else None
  }

  /**
   * The name-only caption exists exactly once the declaration is bound to a
   * class and to a method or attribute, and it always ends with that
   * method's or attribute's name.
   */
  lemma NameOnlyEndsWithName(d: Declaration)
    ensures SignatureCaptionNameOnly(d).Some? <==> d.assignedClassOrModule.Some? && (d.assignedMethod.Some? || IsAttribute(d))
    ensures SignatureCaptionNameOnly(d).Some? ==>
      var s := SignatureCaptionNameOnly(d).value;
      var n := if IsAttribute(d) then d.assignedAttributeName.value else d.assignedMethod.value.name;
      |n| <= |s| && s[|s| - |n|..] == n
  {
    if SignatureCaptionNameOnly(d).Some? {
      var s := SignatureCaptionNameOnly(d).value;
      var n := if IsAttribute(d) then d.assignedAttributeName.value else d.assignedMethod.value.name;
      if !AssignedToToplevelMethod(d) || IsAttribute(d) {
        var prefix := s[..|s| - |n|];
        assert s == prefix + n;
      }
    }
  }

  /** An instance method and a singleton method of the same named class are told apart by `#` and `.`. */
  lemma SingletonAndInstanceCaptions(cls: ClassRef, met: MethodDef)
    requires cls.name.Some? && cls != ObjectClass
    ensures SignatureCaptionNameOnly(NewDeclaration.(assignedClassOrModule := Some(Owner(cls, false)), assignedMethod := Some(met)))
         == Some(cls.name.value + "#" + met.name)
    ensures SignatureCaptionNameOnly(NewDeclaration.(assignedClassOrModule := Some(Owner(cls, true)), assignedMethod := Some(met),
                                                     assignedSingletonOriginalClass := Some(cls)))
         == Some(cls.name.value + "." + met.name)
  {
  }

  /** `name:caption` for a parameter with a matcher, `name:any` for one without. */
  function ParamCaption(w: World, d: Declaration, params: seq<Param>, i: nat): Result<string>
    requires i < |params|
  {
    if i < |d.argMatchers| then
      var c :- ShortCaption(w, d.argMatchers[i]);
      Ok(params[i].name + ":" + c)
    else Ok(params[i].name + ":any")
  }

  /** The captions of the first `n` parameters; the first caption that fails is the failure. */
  function ParamCaptions(w: World, d: Declaration, params: seq<Param>, n: nat): (r: Result<seq<string>>)
    requires n <= |params|
    ensures r.Ok? ==> |r.value| == n
    ensures r.Ok? ==> forall i :: 0 <= i < n ==> ParamCaption(w, d, params, i) == Ok(r.value[i])
  {
    if n == 0 then Ok([])
    else
      var prev :- ParamCaptions(w, d, params, n - 1);
      var c :- ParamCaption(w, d, params, n - 1);
      Ok(prev + [c])
  }

  /** `(a:A, b:B)`, or nothing for a method without parameters. */
  function ParamsPart(w: World, d: Declaration, params: seq<Param>): Result<string>
  {
    var caps :- ParamCaptions(w, d, params, |params|);
    Ok(if |params| == 0 then "" else "(" + Join(caps, ", ") + ")")
  }

  /** The part of the signature after the name. */
  function SignatureTail(w: World, d: Declaration): Result<string>
  {
    if IsAttribute(d) then
      if d.attrMatcher.Some? then
        var c :- ShortCaption(w, d.attrMatcher.value);
        Ok(" -> " + c)
      else Ok("")
    else if d.assignedMethod.None? then Ok("")
    else
      var argsPart :- ParamsPart(w, d, d.assignedMethod.value.params);
      if d.returnMatcher.Some? then
        var c :- ShortCaption(w, d.returnMatcher.value);
        Ok(argsPart + " -> " + c)
      else Ok(argsPart)
  }

  /** `signature_caption`: the name, the parameters with their short captions, and the return type. */
  function SignatureCaption(w: World, d: Declaration): (r: Result<Option<string>>)
    ensures r.Err? ==> SignatureCaptionNameOnly(d).Some?
    ensures r.Ok? ==> (r.value.Some? <==> SignatureCaptionNameOnly(d).Some?)
    ensures r.Ok? && r.value.Some? ==> SignatureCaptionNameOnly(d).value <= r.value.value
  {
    match SignatureCaptionNameOnly(d)
    case None => Ok(None)
    case Some(name) =>
      var tail :- SignatureTail(w, d);
      Ok(Some(name + tail))
  }

  /**
   * The signature caption built as NeuronCheck builds it: the name, then
   * "(" and each parameter's caption after ", ", then ")" and the return.
   */
  method BuildSignatureCaption(w: World, d: Declaration) returns (r: Result<Option<string>>)
    ensures r == SignatureCaption(w, d)
  {
    var nameOnly := SignatureCaptionNameOnly(d);
    if nameOnly.None? {
      return Ok(None);
    }
    var ret := nameOnly.value;
    if IsAttribute(d) {
      if d.attrMatcher.Some? {
        var c := ShortCaption(w, d.attrMatcher.value);
        if c.Err? {
          return Err(c.error);
        }
        ret := ret + " -> " + c.value;
        assert SignatureTail(w, d) == Ok(" -> " + c.value);
        assert ret == nameOnly.value + (" -> " + c.value);
      } else {
        assert SignatureTail(w, d) == Ok("");
        assert ret == nameOnly.value + "";
      }
      return Ok(Some(ret));
    }
    var argsPart := BuildParamsPart(w, d, d.assignedMethod.value.params);
    if argsPart.Err? {
      return Err(argsPart.error);
    }
    ret := ret + argsPart.value;
    if d.returnMatcher.Some? {
      var c := ShortCaption(w, d.returnMatcher.value);
      if c.Err? {
        return Err(c.error);
      }
      ret := ret + " -> " + c.value;
      assert SignatureTail(w, d) == Ok(argsPart.value + " -> " + c.value);
      assert ret == nameOnly.value + (argsPart.value + " -> " + c.value);
    } else {
      assert SignatureTail(w, d) == Ok(argsPart.value);
    }
    return Ok(Some(ret));
  }

  /** The parameter list, appended caption by caption. */
  method BuildParamsPart(w: World, d: Declaration, params: seq<Param>) returns (r: Result<string>)
    ensures r == ParamsPart(w, d, params)
  {
    if |params| == 0 {
      assert ParamCaptions(w, d, params, 0) == Ok([]);
      return Ok("");
    }
    var ret := "(";
    ghost var caps: seq<string> := [];
    var i := 0;
    while i < |params|
      invariant 0 <= i <= |params| && |caps| == i
      invariant ParamCaptions(w, d, params, i) == Ok(caps)
      invariant ret == "(" + Join(caps, ", ")
    {
      var c := ParamCaption(w, d, params, i);
      ParamCaptionsStep(w, d, params, i);
      if c.Err? {
        ParamCaptionsFailFrom(w, d, params, i + 1, |params|);
        return Err(c.error);
      }
      JoinSnocAfter("(", caps, c.value, ", ");
      if i >= 1 {
        ret := ret + ", ";
      }
      ret := ret + c.value;
      caps := caps + [c.value];
      i := i + 1;
    }
    ret := ret + ")";
    return Ok(ret);
  }

  /** One more parameter: its caption is appended, or its failure is the failure. */
  lemma ParamCaptionsStep(w: World, d: Declaration, params: seq<Param>, i: nat)
    requires i < |params| && ParamCaptions(w, d, params, i).Ok?
    ensures ParamCaption(w, d, params, i).Ok? ==>
      ParamCaptions(w, d, params, i + 1) == Ok(ParamCaptions(w, d, params, i).value + [ParamCaption(w, d, params, i).value])
    ensures ParamCaption(w, d, params, i).Err? ==>
      ParamCaptions(w, d, params, i + 1) == Err(ParamCaption(w, d, params, i).error)
  {
  }

  /** Once the captions of a prefix fail, the captions of every longer prefix fail. */
  lemma {:induction false} ParamCaptionsFailFrom(w: World, d: Declaration, params: seq<Param>, k: nat, n: nat)
    requires k <= n <= |params|
    requires ParamCaptions(w, d, params, k).Err?
    ensures ParamCaptions(w, d, params, n) == ParamCaptions(w, d, params, k)
    decreases n - k
  {
    if k < n {
      ParamCaptionsFailFrom(w, d, params, k + 1, n);
    }
  }

  /** A declaration of `Foo#foo_method(value, rate)` with `args String` and `returns String`. */
  function FooMethodDeclaration(cls: ClassRef): Declaration
  {
    NewDeclaration.(
      argMatchers := [KindOfMatcher(StringClass, [])],
      returnMatcher := Some(KindOfMatcher(StringClass, [])),
      assignedClassOrModule := Some(Owner(cls, false)),
      assignedMethod := Some(MethodDef("foo_method", [Param(Req, "value"), Param(Opt, "rate")])))
  }

  /** A parameter without a matcher is shown as `any`. */
  lemma FooMethodParamCaptions(w: World, cls: ClassRef)
    ensures var d := FooMethodDeclaration(cls);
      ParamCaptions(w, d, d.assignedMethod.value.params, 2) == Ok(["value:String", "rate:any"])
  {
    var d := FooMethodDeclaration(cls);
    var params := d.assignedMethod.value.params;
    assert ShortCaption(w, KindOfMatcher(StringClass, [])) == Ok("String");
    FooMethodLiterals();
    assert ParamCaption(w, d, params, 0) == Ok("value:String");
    assert ParamCaption(w, d, params, 1) == Ok("rate:any");
    assert [] + ["value:String"] == ["value:String"];
    assert ParamCaptions(w, d, params, 1) == Ok(["value:String"]);
    assert ["value:String"] + ["rate:any"] == ["value:String", "rate:any"];
  }

  lemma FooMethodParamsPart(w: World, cls: ClassRef)
    ensures var d := FooMethodDeclaration(cls);
      ParamsPart(w, d, d.assignedMethod.value.params) == Ok("(value:String, rate:any)")
  {
    var d := FooMethodDeclaration(cls);
    var params := d.assignedMethod.value.params;
    FooMethodParamCaptions(w, cls);
    var caps := ["value:String", "rate:any"];
    assert ParamCaptions(w, d, params, |params|) == Ok(caps);
    assert Join(caps, ", ") == "value:String" + ", " + "rate:any" by {
      JoinSnoc(["value:String"], "rate:any", ", ");
      assert ["value:String"] + ["rate:any"] == caps;
      JoinSingle("value:String", ", ");
    }
    assert ParamsPart(w, d, params) == Ok("(" + Join(caps, ", ") + ")");
    FooMethodLiterals();
  }

  /** The signature shows every parameter with its expectation, then the return. */
  lemma FooMethodSignature(w: World, cls: ClassRef)
    requires cls.name == Some("Foo") && cls != ObjectClass
    ensures SignatureCaption(w, FooMethodDeclaration(cls)) == Ok(Some("Foo#foo_method(value:String, rate:any) -> String"))
  {
    FooMethodParamsPart(w, cls);
    assert ShortCaption(w, KindOfMatcher(StringClass, [])) == Ok("String");
    assert SignatureTail(w, FooMethodDeclaration(cls)) == Ok("(value:String, rate:any)" + " -> " + "String");
    assert SignatureCaptionNameOnly(FooMethodDeclaration(cls)) == Some("Foo" + "#" + "foo_method");
    FooMethodLiterals();
    FooMethodSignatureLiteral();
  }

  /** The pieces the parameter captions of `Foo#foo_method` are built from. */
  lemma FooMethodLiterals()
    ensures "value" + ":" + "String" == "value:String"
    ensures "rate" + ":any" == "rate:any"
    ensures "(" + ("value:String" + ", " + "rate:any") + ")" == "(value:String, rate:any)"
    ensures "Foo" + "#" + "foo_method" == "Foo#foo_method"
    ensures "(value:String, rate:any)" + " -> " + "String" == "(value:String, rate:any) -> String"
  {
  }

  /** The signature of `Foo#foo_method` is its name followed by its tail. */
  lemma FooMethodSignatureLiteral()
    ensures "Foo#foo_method" + "(value:String, rate:any) -> String" == "Foo#foo_method(value:String, rate:any) -> String"
  {
  }

  // ---------------------------------------------------------------------
  // meta_info_as_json
  // ---------------------------------------------------------------------

  function OptionalMeta(w: World, m: Option<Matcher>): Result<Json>
  {
    match m
    case None => Ok(JValue(VNil))
    case Some(x) => Meta(w, x)
  }

  function OptionalString(s: Option<string>): Json
  {
    match s
    case None => JValue(VNil)
    case Some(x) => JValue(VStr(x))
  }

  function SourceLocation(c: Option<Cond>): Json
  {
    match c
    case None => JValue(VNil)
    case Some(x) => JValue(VArray([VStr(x.sourceFile), VInt(x.sourceLine)]))
  }

  /**
   * `meta_info_as_json`: `value` for an attribute, `args` and `returns` for
   * a method, then both signature captions and the file locations of the
   * condition blocks.
   */
  function DeclarationMeta(w: World, d: Declaration): (r: Result<seq<Field>>)
    ensures r.Ok? ==> |r.value| == (if IsAttribute(d) then 5 else 6)
    ensures r.Ok? ==> r.value[|r.value| - 2] == Field("precond_source_location", SourceLocation(d.precond))
    ensures r.Ok? ==> r.value[|r.value| - 1] == Field("postcond_source_location", SourceLocation(d.postcond))
    ensures r.Ok? ==> r.value[|r.value| - 3] == Field("signature_caption_name_only", OptionalString(SignatureCaptionNameOnly(d)))
    ensures r.Ok? <==> (SignatureCaption(w, d).Ok?
                        && if IsAttribute(d) then OptionalMeta(w, d.attrMatcher).Ok?
                           else MetaAll(w, d.argMatchers).Ok? && OptionalMeta(w, d.returnMatcher).Ok?)
    ensures r.Ok? && IsAttribute(d) ==>
      r.value[0] == Field("value", OptionalMeta(w, d.attrMatcher).value)
      && r.value[1] == Field("signature_caption", OptionalString(SignatureCaption(w, d).value))
    ensures r.Ok? && !IsAttribute(d) ==>
      r.value[0] == Field("args", JList(MetaAll(w, d.argMatchers).value))
      && r.value[1] == Field("returns", OptionalMeta(w, d.returnMatcher).value)
      && r.value[2] == Field("signature_caption", OptionalString(SignatureCaption(w, d).value))
    ensures r.Err? && IsAttribute(d) ==>
      r.error == if OptionalMeta(w, d.attrMatcher).Err? then OptionalMeta(w, d.attrMatcher).error else SignatureCaption(w, d).error
    ensures r.Err? && !IsAttribute(d) ==>
      r.error == if MetaAll(w, d.argMatchers).Err? then MetaAll(w, d.argMatchers).error
                 else if OptionalMeta(w, d.returnMatcher).Err? then OptionalMeta(w, d.returnMatcher).error
                 else SignatureCaption(w, d).error
  {
    var tail := [Field("precond_source_location", SourceLocation(d.precond)),
                 Field("postcond_source_location", SourceLocation(d.postcond))];
    var nameOnly := Field("signature_caption_name_only", OptionalString(SignatureCaptionNameOnly(d)));
    if IsAttribute(d) then
      var value :- OptionalMeta(w, d.attrMatcher);
      var sig :- SignatureCaption(w, d);
      Ok([Field("value", value), Field("signature_caption", OptionalString(sig)), nameOnly] + tail)
    else
      var args :- MetaAll(w, d.argMatchers);
      var ret :- OptionalMeta(w, d.returnMatcher);
      var sig :- SignatureCaption(w, d);
      Ok([Field("args", JList(args)), Field("returns", ret), Field("signature_caption", OptionalString(sig)), nameOnly] + tail)
  }

  // ---------------------------------------------------------------------
  // The declaration block
  // ---------------------------------------------------------------------

  /**
   * A command of a declaration block, with the location it was called from
   * where the command records one (`caller(1, 1)`).
   */
  datatype DeclStep =
    | ArgsCall(expecteds: seq<Value>, at: Locations)
    | ReturnsCall(expected: Value, at: Locations)
      /** `precond`/`postcond`: the block given, or None when called without one (that clears the condition) */
    | PrecondCall(cond: Option<Cond>, allowInstanceMethod: bool)
    | PostcondCall(cond: Option<Cond>, allowInstanceMethod: bool)
      /** `val`, also spelt `must_be` and `value` */
    | ValCall(expected: Value, at: Locations)

  /**
   * What one command does to the declaration: each sets its own fields and
   * no others, and a command whose expectation cannot be resolved fails
   * without setting anything.
   */
  function ApplyStep(w: World, d: Declaration, s: DeclStep): (r: Result<Declaration>)
    ensures s.ArgsCall? ==> (r.Ok? <==> ResolveAll(w, s.expecteds, s.at).Ok?)
    ensures s.ArgsCall? && r.Ok? ==> r.value == d.(argMatchers := ResolveAll(w, s.expecteds, s.at).value)
    ensures s.ReturnsCall? ==> (r.Ok? <==> Resolve(w, s.expected, s.at).Ok?)
    ensures s.ReturnsCall? && r.Ok? ==> r.value == d.(returnMatcher := Some(Resolve(w, s.expected, s.at).value))
    ensures s.ValCall? ==> (r.Ok? <==> Resolve(w, s.expected, s.at).Ok?)
    ensures s.ValCall? && r.Ok? ==> r.value == d.(attrMatcher := Some(Resolve(w, s.expected, s.at).value))
    ensures s.PrecondCall? ==> r == Ok(d.(precond := s.cond, precondAllowInstanceMethod := s.allowInstanceMethod))
    ensures s.PostcondCall? ==> r == Ok(d.(postcond := s.cond, postcondAllowInstanceMethod := s.allowInstanceMethod))
    ensures r.Err? ==> r.error.DeclarationError?
    ensures r.Ok? ==> Unbound(r.value, d)
  {
    match s
    case ArgsCall(expecteds, at) =>
      var ms :- ResolveAll(w, expecteds, at);
      Ok(d.(argMatchers := ms))
    case ReturnsCall(expected, at) =>
      var m :- Resolve(w, expected, at);
      Ok(d.(returnMatcher := Some(m)))
    case PrecondCall(cond, allow) =>
      Ok(d.(precond := cond, precondAllowInstanceMethod := allow))
    case PostcondCall(cond, allow) =>
      Ok(d.(postcond := cond, postcondAllowInstanceMethod := allow))
    case ValCall(expected, at) =>
      var m :- Resolve(w, expected, at);
      Ok(d.(attrMatcher := Some(m)))
  }

  /** A block's commands never bind a declaration, nor mark it as shorthand: those fields keep what they had. */
  predicate Unbound(d': Declaration, d: Declaration)
  {
    d'.assignedClassOrModule == d.assignedClassOrModule && d'.assignedMethod == d.assignedMethod
    && d'.assignedSingletonOriginalClass == d.assignedSingletonOriginalClass
    && d'.assignedAttributeName == d.assignedAttributeName
    && d'.shorthand == d.shorthand && d'.declaredCallerLocations == d.declaredCallerLocations
  }

  /** The commands of a block in order, from `d`; the first failure ends the block. */
  function Build(w: World, d: Declaration, steps: seq<DeclStep>): (r: Result<Declaration>)
    ensures r.Ok? ==> Unbound(r.value, d)
    ensures r.Err? ==> r.error.DeclarationError?
    decreases |steps|
  {
    if |steps| == 0 then Ok(d)
    else
      var d' :- Build(w, d, steps[..|steps| - 1]);
      ApplyStep(w, d', steps[|steps| - 1])
  }

  /** The expectation a command resolves is acceptable. */
  predicate StepAccepted(s: DeclStep)
  {
    match s
    case ArgsCall(expecteds, _) => forall i :: 0 <= i < |expecteds| ==> Resolvable(expecteds[i])
    case ReturnsCall(expected, _) => Resolvable(expected)
    case ValCall(expected, _) => Resolvable(expected)
    case _ => true
  }

  lemma StepSucceedsIff(w: World, d: Declaration, s: DeclStep)
    ensures ApplyStep(w, d, s).Ok? <==> StepAccepted(s)
  {
    match s
    case ArgsCall(expecteds, at) => ResolveAllSucceedsIff(w, expecteds, at);
    case ReturnsCall(expected, at) => ResolveSucceedsIff(w, expected, at);
    case ValCall(expected, at) => ResolveSucceedsIff(w, expected, at);
    case _ =>
  }

  /** A declaration block goes through exactly when every command's expectation is acceptable. */
  lemma {:induction false} BuildSucceedsIff(w: World, d: Declaration, steps: seq<DeclStep>)
    ensures Build(w, d, steps).Ok? <==> forall i :: 0 <= i < |steps| ==> StepAccepted(steps[i])
    decreases |steps|
  {
    if |steps| > 0 {
      var init := steps[..|steps| - 1];
      BuildSucceedsIff(w, d, init);
      assert forall i :: 0 <= i < |init| ==> init[i] == steps[i];
      if Build(w, d, init).Ok? {
        StepSucceedsIff(w, Build(w, d, init).value, steps[|steps| - 1]);
      }
    }
  }

  /** Of two `returns` commands, the later one wins. */
  lemma LaterReturnsWins(w: World, d: Declaration, a: Value, b: Value, at1: Locations, at2: Locations)
    requires Resolve(w, a, at1).Ok? && Resolve(w, b, at2).Ok?
    ensures Build(w, d, [ReturnsCall(a, at1), ReturnsCall(b, at2)])
         == Ok(d.(returnMatcher := Some(Resolve(w, b, at2).value)))
  {
    var steps := [ReturnsCall(a, at1), ReturnsCall(b, at2)];
    assert steps[..1] == [ReturnsCall(a, at1)];
    assert steps[..1][..0] == [];
    var d1 := d.(returnMatcher := Some(Resolve(w, a, at1).value));
    assert Build(w, d, steps[..1]) == ApplyStep(w, d, ReturnsCall(a, at1)) == Ok(d1);
  }

  /** `precond` called again without a block clears the condition an earlier call set. */
  lemma PrecondWithoutBlockClears(w: World, d: Declaration, c: Cond, allow1: bool, allow2: bool)
    ensures Build(w, d, [PrecondCall(Some(c), allow1), PrecondCall(None, allow2)])
         == Ok(d.(precond := None, precondAllowInstanceMethod := allow2))
  {
    var steps := [PrecondCall(Some(c), allow1), PrecondCall(None, allow2)];
    assert steps[..1] == [PrecondCall(Some(c), allow1)];
    assert steps[..1][..0] == [];
    var d1 := d.(precond := Some(c), precondAllowInstanceMethod := allow1);
    assert Build(w, d, steps[..1]) == ApplyStep(w, d, PrecondCall(Some(c), allow1)) == Ok(d1);
  }

  /** The receiver of a declaration block, on which its commands are called. */
  class DeclarationContext {
    var declaration: Declaration

    constructor ()
      ensures declaration == NewDeclaration
    {
      declaration := NewDeclaration;
    }

    /** One command; a failed one leaves the declaration as it was. */
    method Perform(w: World, s: DeclStep) returns (o: Outcome)
      modifies this
      ensures var r := ApplyStep(w, old(declaration), s);
        if r.Ok? then o == Pass && declaration == r.value else o == Fail(r.error) && declaration == old(declaration)
    {
      var r := ApplyStep(w, declaration, s);
      if r.Err? {
        return Fail(r.error);
      }
      declaration := r.value;
      o := Pass;
    }

    /**
     * The shorthand's last step: the declaration is marked as shorthand,
     * and it and each of its top-level matchers take the locations of the
     * `ndecl` call.
     */
    method MarkShorthand(locs: Locations)
      modifies this
      ensures declaration == old(declaration).(shorthand := true, declaredCallerLocations := Some(locs),
        argMatchers := Relocate(old(declaration).argMatchers, locs),
        returnMatcher := if old(declaration).returnMatcher.Some? then Some(old(declaration).returnMatcher.value.(locations := locs)) else None)
    {
      declaration := declaration.(shorthand := true, declaredCallerLocations := Some(locs));
      var ms := declaration.argMatchers;
      var i := 0;
      while i < |ms|
        invariant 0 <= i <= |ms| && |declaration.argMatchers| == |ms|
        invariant declaration == old(declaration).(shorthand := true, declaredCallerLocations := Some(locs),
                                                   argMatchers := declaration.argMatchers)
        invariant forall j :: 0 <= j < i ==> declaration.argMatchers[j] == ms[j].(locations := locs)
        invariant forall j :: i <= j < |ms| ==> declaration.argMatchers[j] == ms[j]
      {
        declaration := declaration.(argMatchers := declaration.argMatchers[i := ms[i].(locations := locs)]);
        i := i + 1;
      }
      assert declaration.argMatchers == Relocate(ms, locs);
      if declaration.returnMatcher.Some? {
        declaration := declaration.(returnMatcher := Some(declaration.returnMatcher.value.(locations := locs)));
      }
    }

    /** `instance_eval(&block)`: the block's commands in order, until one fails. */
    method Run(w: World, steps: seq<DeclStep>) returns (o: Outcome)
      modifies this
      ensures var r := Build(w, old(declaration), steps);
        if r.Ok? then o == Pass && declaration == r.value else o == Fail(r.error)
    {
      ghost var d0 := declaration;
      var i := 0;
      while i < |steps|
        invariant 0 <= i <= |steps|
        invariant Build(w, d0, steps[..i]) == Ok(declaration)
      {
        assert steps[..i + 1][..i] == steps[..i];
        var step := Perform(w, steps[i]);
        if step.Fail? {
          assert Build(w, d0, steps[..i + 1]) == Err(step.error);
          BuildFailsFrom(w, d0, steps, i + 1, |steps|);
          assert steps[..|steps|] == steps;
          return step;
        }
        i := i + 1;
      }
      assert steps[..i] == steps;
      o := Pass;
    }
  }

  /** Once a prefix of a block fails, every longer prefix fails. */
  lemma {:induction false} BuildFailsFrom(w: World, d: Declaration, steps: seq<DeclStep>, k: nat, n: nat)
    requires k <= n <= |steps|
    requires Build(w, d, steps[..k]).Err?
    ensures Build(w, d, steps[..n]) == Build(w, d, steps[..k])
    decreases n - k
  {
    if k < n {
      assert steps[..k + 1][..k] == steps[..k];
      BuildFailsFrom(w, d, steps, k + 1, n);
    }
  }

  /** `__neuroncheck_ndecl_main_with_block`: the block's declaration, with the location of the `ndecl` call. */
  function BlockDeclaration(w: World, steps: seq<DeclStep>, locs: Locations): Result<Declaration>
  {
    var d :- Build(w, NewDeclaration, steps);
    Ok(d.(declaredCallerLocations := Some(locs)))
  }

  // ---------------------------------------------------------------------
  // The shorthand form
  // ---------------------------------------------------------------------

  /** How the shorthand reads its arguments: the argument expectations and the return expectation. */
  datatype Split = Split(args: seq<Value>, ret: Option<Value>)

  /** The last expectation is a Hash with exactly one entry: `..., A => R`. */
  predicate EndsWithArrow(expecteds: seq<Value>)
  {
    |expecteds| > 0 && expecteds[|expecteds| - 1].VHash? && |expecteds[|expecteds| - 1].entries| == 1
  }

  function ShorthandSplit(expecteds: seq<Value>): Split
  {
    var s :=
      if EndsWithArrow(expecteds) then
        var e := expecteds[|expecteds| - 1].entries[0];
        Split(expecteds[..|expecteds| - 1] + [e.key], Some(e.val))
      else Split(expecteds, None);
    if |s.args| == 1 && s.args[0].VArray? then s.(args := []) else s
  }

  /**
   * `..., K => R`: a last one-entry Hash gives its key as the last argument
   * and its value as the return; when K is the only argument and is an Array
   * (`ndecl [] => R`, but any Array) there are no arguments.
   */
  lemma {:induction false} ShorthandSplitArrow(p: seq<Value>, k: Value, r: Value)
    ensures ShorthandSplit(p + [VHash([Entry(k, r)])])
      == if |p| == 0 && k.VArray? then Split([], Some(r)) else Split(p + [k], Some(r))
  {
    var expecteds := p + [VHash([Entry(k, r)])];
    assert expecteds[..|expecteds| - 1] == p;
  }

  /**
   * Without a final one-entry Hash every expectation is an argument and
   * there is no return expectation, except that a lone Array means none.
   */
  lemma ShorthandSplitWithoutArrow(expecteds: seq<Value>)
    requires !EndsWithArrow(expecteds)
    ensures ShorthandSplit(expecteds).ret.None?
    ensures |expecteds| != 1 || !expecteds[0].VArray? ==> ShorthandSplit(expecteds).args == expecteds
    ensures |expecteds| == 1 && expecteds[0].VArray? ==> ShorthandSplit(expecteds).args == []
  {
  }

  /** Every top-level matcher gets the locations of the `ndecl` call. */
  function Relocate(ms: seq<Matcher>, locs: Locations): (r: seq<Matcher>)
    ensures |r| == |ms|
    ensures forall i :: 0 <= i < |ms| ==> r[i].locations == locs
    ensures forall i :: 0 <= i < |ms| ==> r[i].(locations := ms[i].locations) == ms[i]
  {
    seq(|ms|, i requires 0 <= i < |ms| => ms[i].(locations := locs))
  }

  /**
   * `__neuroncheck_ndecl_main_without_block`.  The `args` and `returns`
   * calls it makes happen inside the library, at `libraryLocs`; afterwards
   * only the top-level matchers are given the locations of the `ndecl`
   * call, so the children of an Or keep `libraryLocs`.
   */
  function ShorthandDeclaration(w: World, expecteds: seq<Value>, locs: Locations, libraryLocs: Locations): (r: Result<Declaration>)
    ensures r.Ok? ==> r.value.shorthand && r.value.declaredCallerLocations == Some(locs)
    ensures r.Ok? ==> forall i :: 0 <= i < |r.value.argMatchers| ==> r.value.argMatchers[i].locations == locs
    ensures r.Ok? && r.value.returnMatcher.Some? ==> r.value.returnMatcher.value.locations == locs
    ensures r.Ok? ==> |r.value.argMatchers| == |ShorthandSplit(expecteds).args|
    ensures r.Err? ==> r.error.DeclarationError?
  {
    var s := ShorthandSplit(expecteds);
    var d1 :- if |s.args| > 0 then ApplyStep(w, NewDeclaration, ArgsCall(s.args, libraryLocs)) else Ok(NewDeclaration);
    var d2 :- if s.ret.Some? && Truthy(s.ret.value) then ApplyStep(w, d1, ReturnsCall(s.ret.value, libraryLocs)) else Ok(d1);
    Ok(d2.(shorthand := true, declaredCallerLocations := Some(locs),
           argMatchers := Relocate(d2.argMatchers, locs),
           returnMatcher := if d2.returnMatcher.Some? then Some(d2.returnMatcher.value.(locations := locs)) else None))
  }

  /** The shorthand reads `A, B => R` as the arguments A, B and the return R. */
  lemma ArrowSplit(a: Value, b: Value, ret: Value)
    ensures ShorthandSplit([a, VHash([Entry(b, ret)])]) == Split([a, b], Some(ret))
  {
    ShorthandSplitArrow([a], b, ret);
  }

  lemma ResolveTwo(w: World, a: Value, b: Value, locs: Locations)
    requires Resolve(w, a, locs).Ok? && Resolve(w, b, locs).Ok?
    ensures ResolveAll(w, [a, b], locs) == Ok([Resolve(w, a, locs).value, Resolve(w, b, locs).value])
  {
    assert [a, b][1..] == [b];
    assert [b][1..] == [];
    assert [Resolve(w, b, locs).value] + [] == [Resolve(w, b, locs).value];
    var ma := Resolve(w, a, locs).value;
    var mb := Resolve(w, b, locs).value;
    assert ResolveAll(w, [b], locs) == Ok([mb]);
    assert ResolveAll(w, [a, b], locs) == Ok([ma] + [mb]);
    assert [ma] + [mb] == [ma, mb];
  }

  /**
   * Once the shorthand's arguments are split into a non-empty argument list
   * and a return that resolve, the declaration holds their matchers, moved
   * to the locations of the `ndecl` call.
   */
  lemma ShorthandOfSplit(w: World, expecteds: seq<Value>, args: seq<Value>, ret: Value, locs: Locations, libraryLocs: Locations)
    requires ShorthandSplit(expecteds) == Split(args, Some(ret)) && |args| > 0
    requires ResolveAll(w, args, libraryLocs).Ok? && (Truthy(ret) ==> Resolve(w, ret, libraryLocs).Ok?)
    ensures ShorthandDeclaration(w, expecteds, locs, libraryLocs)
         == Ok(NewDeclaration.(shorthand := true, declaredCallerLocations := Some(locs),
                               argMatchers := Relocate(ResolveAll(w, args, libraryLocs).value, locs),
                               returnMatcher := if Truthy(ret) then Some(Resolve(w, ret, libraryLocs).value.(locations := locs)) else None))
  {
    var d1 := NewDeclaration.(argMatchers := ResolveAll(w, args, libraryLocs).value);
    assert ApplyStep(w, NewDeclaration, ArgsCall(args, libraryLocs)) == Ok(d1);
    if Truthy(ret) {
      assert ApplyStep(w, d1, ReturnsCall(ret, libraryLocs)) == Ok(d1.(returnMatcher := Some(Resolve(w, ret, libraryLocs).value)));
    }
  }

  /**
   * `ndecl A, B => R` declares the arguments A and B and the return R, with
   * the locations of the `ndecl` call; a falsy return (`=> nil`) declares
   * no return check.
   */
  lemma ShorthandMeaning(w: World, a: Value, b: Value, ret: Value, locs: Locations, libraryLocs: Locations)
    requires Resolve(w, a, libraryLocs).Ok? && Resolve(w, b, libraryLocs).Ok? && Resolve(w, ret, libraryLocs).Ok?
    ensures var r := ShorthandDeclaration(w, [a, VHash([Entry(b, ret)])], locs, libraryLocs);
      r.Ok? && r.value.shorthand && r.value.declaredCallerLocations == Some(locs)
      && r.value.argMatchers == [Resolve(w, a, libraryLocs).value.(locations := locs),
                                 Resolve(w, b, libraryLocs).value.(locations := locs)]
      && r.value.returnMatcher == (if Truthy(ret) then Some(Resolve(w, ret, libraryLocs).value.(locations := locs)) else None)
      && r.value.attrMatcher.None? && r.value.precond.None? && r.value.postcond.None?
  {
    ArrowSplit(a, b, ret);
    ResolveTwo(w, a, b, libraryLocs);
    ShorthandOfSplit(w, [a, VHash([Entry(b, ret)])], [a, b], ret, locs, libraryLocs);
    RelocateTwo(Resolve(w, a, libraryLocs).value, Resolve(w, b, libraryLocs).value, locs);
  }

  lemma RelocateTwo(ma: Matcher, mb: Matcher, locs: Locations)
    ensures Relocate([ma, mb], locs) == [ma.(locations := locs), mb.(locations := locs)]
  {
    var r := Relocate([ma, mb], locs);
    assert r[0] == ma.(locations := locs) && r[1] == mb.(locations := locs);
  }

  /** `ndecl [] => R` declares no argument check, only the return. */
  lemma ShorthandNoArguments(w: World, items: seq<Value>, ret: Value, locs: Locations, libraryLocs: Locations)
    requires Resolve(w, ret, libraryLocs).Ok? && Truthy(ret)
    ensures var r := ShorthandDeclaration(w, [VHash([Entry(VArray(items), ret)])], locs, libraryLocs);
      r.Ok? && r.value.argMatchers == [] && r.value.returnMatcher == Some(Resolve(w, ret, libraryLocs).value.(locations := locs))
  {
    var expecteds := [VHash([Entry(VArray(items), ret)])];
    assert expecteds[..0] + [VArray(items)] == [VArray(items)];
  }

  // ---------------------------------------------------------------------
  // The state `ndecl` keeps on a class or module
  // ---------------------------------------------------------------------

  const RepeatedDeclarations := DeclarationError("repeated declarations - Declaration block and method definition must correspond one-to-one")

  /** The declaration `ndecl` makes: from its block, or from its arguments when it has none. */
  function NdeclDeclaration(w: World, expecteds: seq<Value>, block: Option<seq<DeclStep>>, locs: Locations, libraryLocs: Locations)
    : Result<Declaration>
  {
    if block.Some? then BlockDeclaration(w, block.value, locs)
    else ShorthandDeclaration(w, expecteds, locs, libraryLocs)
  }

  /** `table` with each of `names` mapped to `x`. */
  function RegisterAll<T>(table: map<string, T>, names: seq<string>, x: T): (r: map<string, T>)
    ensures r.Keys == table.Keys + set n | n in names
    ensures forall n :: n in r ==> r[n] == if n in names then x else table[n]
  {
    if |names| == 0 then table else RegisterAll(table, names[..|names| - 1], x)[names[|names| - 1] := x]
  }

  /**
   * A class or module that uses NeuronCheck, with the instance variables
   * the engine keeps on it: whether it was initialised and extended,
   * whether the method-definition hook is on, the pending declaration, and
   * the attribute check wrappers of its prepended module (the matcher each
   * reader and writer checks with, if any).
   */
  class CheckedModule {
    const cls: ClassRef
    var initialized: bool
    var extended: bool
    var hookEnabled: bool
    var lastDeclaration: Option<Declaration>
    var readers: map<string, Option<Matcher>>
    var writers: map<string, Option<Matcher>>

    constructor (cls: ClassRef)
      ensures this.cls == cls && !initialized && !extended && !hookEnabled && lastDeclaration.None?
      ensures readers == map[] && writers == map[]
    {
      this.cls := cls;
      initialized := false;
      extended := false;
      hookEnabled := false;
      lastDeclaration := None;
      readers := map[];
      writers := map[];
    }

    /** `@__neuron_check_last_declaration = d`, as the engine's hooks write it. */
    method SetPending(d: Option<Declaration>)
      modifies this
      ensures lastDeclaration == d
      ensures initialized == old(initialized) && extended == old(extended) && hookEnabled == old(hookEnabled)
      ensures readers == old(readers) && writers == old(writers)
    {
      lastDeclaration := d;
    }

    /**
     * `__neuroncheck_ndecl_main`: a declaration still waiting for its method
     * is an error; otherwise the new declaration (if it can be made) waits.
     */
    method NdeclMain(w: World, expecteds: seq<Value>, block: Option<seq<DeclStep>>, locs: Locations, libraryLocs: Locations)
      returns (o: Outcome)
      modifies this
      ensures old(lastDeclaration).Some? ==> o == Fail(RepeatedDeclarations) && lastDeclaration == old(lastDeclaration)
      ensures old(lastDeclaration).None? ==>
        var r := NdeclDeclaration(w, expecteds, block, locs, libraryLocs);
        if r.Ok? then o == Pass && lastDeclaration == Some(r.value) else o == Fail(r.error) && lastDeclaration.None?
      ensures initialized == old(initialized) && extended == old(extended) && hookEnabled == old(hookEnabled)
      ensures readers == old(readers) && writers == old(writers)
    {
      if lastDeclaration.Some? {
        return Fail(RepeatedDeclarations);
      }
      if block.Some? {
        o := NdeclMainWithBlock(w, block.value, locs);
      } else {
        o := NdeclMainWithoutBlock(w, expecteds, locs, libraryLocs);
      }
    }

    method NdeclMainWithBlock(w: World, steps: seq<DeclStep>, locs: Locations) returns (o: Outcome)
      requires lastDeclaration.None?
      modifies this
      ensures var r := BlockDeclaration(w, steps, locs);
        if r.Ok? then o == Pass && lastDeclaration == Some(r.value) else o == Fail(r.error) && lastDeclaration.None?
      ensures initialized == old(initialized) && extended == old(extended) && hookEnabled == old(hookEnabled)
      ensures readers == old(readers) && writers == old(writers)
    {
      var context := new DeclarationContext();
      var run := context.Run(w, steps);
      if run.Fail? {
        return run;
      }
      context.declaration := context.declaration.(declaredCallerLocations := Some(locs));
      lastDeclaration := Some(context.declaration);
      o := Pass;
    }

    method NdeclMainWithoutBlock(w: World, expecteds: seq<Value>, locs: Locations, libraryLocs: Locations) returns (o: Outcome)
      requires lastDeclaration.None?
      modifies this
      ensures var r := ShorthandDeclaration(w, expecteds, locs, libraryLocs);
        if r.Ok? then o == Pass && lastDeclaration == Some(r.value) else o == Fail(r.error) && lastDeclaration.None?
      ensures initialized == old(initialized) && extended == old(extended) && hookEnabled == old(hookEnabled)
      ensures readers == old(readers) && writers == old(writers)
    {
      var s := ShorthandSplit(expecteds);
      var context := new DeclarationContext();
      if |s.args| > 0 {
        var a := context.Perform(w, ArgsCall(s.args, libraryLocs));
        if a.Fail? {
          return a;
        }
      }
      if s.ret.Some? && Truthy(s.ret.value) {
        var b := context.Perform(w, ReturnsCall(s.ret.value, libraryLocs));
        if b.Fail? {
          return b;
        }
      }
      context.MarkShorthand(locs);
      lastDeclaration := Some(context.declaration);
      o := Pass;
    }

    /** The loops of `__neuron_check_attr_defined` that give each attribute its reader and/or writer check. */
    method RegisterAccessors(names: seq<string>, target: Option<Matcher>, useReader: bool, useWriter: bool)
      modifies this
      ensures readers == (if useReader then RegisterAll(old(readers), names, target) else old(readers))
      ensures writers == (if useWriter then RegisterAll(old(writers), names, target) else old(writers))
      ensures initialized == old(initialized) && extended == old(extended) && hookEnabled == old(hookEnabled)
      ensures lastDeclaration == old(lastDeclaration)
    {
      var i := 0;
      while i < |names|
        invariant 0 <= i <= |names|
        invariant readers == (if useReader then RegisterAll(old(readers), names[..i], target) else old(readers))
        invariant writers == (if useWriter then RegisterAll(old(writers), names[..i], target) else old(writers))
        invariant initialized == old(initialized) && extended == old(extended) && hookEnabled == old(hookEnabled)
        invariant lastDeclaration == old(lastDeclaration)
      {
        assert names[..i + 1][..i] == names[..i];
        if useReader {
          readers := readers[names[i] := target];
        }
        if useWriter {
          writers := writers[names[i] := target];
        }
        i := i + 1;
      }
      assert names[..|names|] == names;
    }
  }
}
