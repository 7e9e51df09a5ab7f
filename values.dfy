/**
 * The Ruby values the contract engine inspects, and the parts of Ruby's
 * object model it consults.
 *
 * Values are immutable here; an object is known by its identity (`id`) and
 * its class, so `equal?` (identity) and `==` coincide.  What the engine asks
 * of Ruby and cannot see inside (`kind_of?` for user classes, `respond_to?`,
 * `inspect` of arbitrary objects, `Regexp#=~`, `Range#include?` on
 * non-Integer operands and the bodies of user keyword plugins) is a field of
 * a `World`, a bundle of total functions passed to every operation that
 * needs it.
 */
module Values {
  import opened Errors
  import opened Text

  /** A class or module, known by identity; `name` is None when it is anonymous. */
  datatype ClassRef = ClassRef(id: nat, name: Option<string>)

  const ObjectClass := ClassRef(0, Some("Object"))
  /** The `NeuronCheckSystem` module: the receiver argument checks are given */
  const SystemModule := ClassRef(1, Some("NeuronCheckSystem"))
  const StringClass := ClassRef(2, Some("String"))
  const ArrayClass := ClassRef(3, Some("Array"))
  const HashClass := ClassRef(4, Some("Hash"))
  const ProcClass := ClassRef(5, Some("Proc"))

  /** How many parameters a keyword's `on_call` takes. */
  datatype Arity = AnyArity | Exactly(n: nat)

  /**
   * What a keyword class does: one of the built-in bodies, or a body some
   * plugin supplied, which the `World` interprets.  A plugin body may or may
   * not override `expected_short_caption` and `get_params_as_json`.
   */
  datatype Behaviour =
    | Respondable
    | AnyValue
    | BlockArg
    | Except
    | ArrayOf
    | HashOf
    | Custom(id: nat, definesShortCaption: bool, definesParamsJson: bool)

  /**
   * A keyword class: its `@keyword_name`, its instance methods, its
   * `builtin_keyword?` answer and the arity of its `on_call`.
   */
  datatype KeywordClass = KeywordClass(name: string, behaviour: Behaviour, builtin: bool, arity: Arity)

  datatype Value =
    | VNil
    | VTrue
    | VFalse
    | VInt(i: int)
    | VStr(s: string)
    | VSym(name: string)
    | VArray(items: seq<Value>)
    | VHash(entries: seq<Entry>)
      /** an Integer range `first..last`, or `first...last` when exclusive */
    | VRange(first: int, last: int, exclusive: bool)
    | VRegexp(source: string)
    | VClass(cls: ClassRef)
    | VProc(id: nat)
    | VObject(id: nat, cls: ClassRef)
      /** a keyword instance: its class and the parameters `on_call` stored */
    | VKeyword(keyword: KeywordClass, params: seq<Value>)
      /** the receiver of a declaration block (what `self` means inside one) */
    | VDeclContext(id: nat)

  /** A Hash entry; a Hash keeps its insertion order. */
  datatype Entry = Entry(key: Value, val: Value)

  /** A value of the JSON-like meta records: a plain value, a list or an ordered Hash. */
  datatype Json = JValue(v: Value) | JList(items: seq<Json>) | JObject(fields: seq<Field>)
  datatype Field = Field(key: string, val: Json)

  /** Ruby's side of the engine, which the engine consults but does not define. */
  datatype World = World(
    /** `value.kind_of?(cls)` for the classes the model does not fix */
    kindOf: (Value, ClassRef) -> bool,
    /** `value.respond_to?(name, include_private)` */
    respondTo: (Value, string, bool) -> bool,
    /** `value.inspect` where the model gives no rendering */
    inspectOther: Value -> string,
    /** `value.to_s` where the model gives no rendering */
    toSOther: Value -> string,
    /** `Regexp.new(source) =~ string` is not nil */
    regexpMatches: (string, string) -> bool,
    /** `(first..last).include?(value)` for a value that is not an Integer */
    rangeCovers: (int, int, bool, Value) -> bool,
    /** a plugin keyword's `match?(value)`, given its parameters and the receiver */
    pluginMatch: (nat, seq<Value>, Value, Value) -> bool,
    pluginCaption: (nat, seq<Value>) -> string,
    pluginShortCaption: (nat, seq<Value>) -> string,
    pluginParamsJson: (nat, seq<Value>) -> seq<Field>
  )

  /** Ruby truthiness: everything except nil and false */
  predicate Truthy(v: Value)
  {
    !v.VNil? && !v.VFalse?
  }

  /** `value.kind_of?(cls)`: fixed by the variant for the core classes the engine names. */
  function KindOf(w: World, v: Value, c: ClassRef): (b: bool)
    ensures c == StringClass ==> (b <==> v.VStr?)
    ensures c == ArrayClass ==> (b <==> v.VArray?)
    ensures c == HashClass ==> (b <==> v.VHash?)
    ensures c == ProcClass ==> (b <==> v.VProc?)
  {
    if c == StringClass then v.VStr?
    else if c == ArrayClass then v.VArray?
    else if c == HashClass then v.VHash?
    else if c == ProcClass then v.VProc?
    else w.kindOf(v, c)
  }

  /** `"#{x}"` for a value that is a String or nil */
  function Interp(o: Option<string>): string
  {
    if o.Some? then o.value else ""
  }

  /** `value.class.name` */
  function ClassNameOf(v: Value): Option<string>
  {
    match v
    case VNil => Some("NilClass")
    case VTrue => Some("TrueClass")
    case VFalse => Some("FalseClass")
    case VInt(_) => Some("Integer")
    case VStr(_) => Some("String")
    case VSym(_) => Some("Symbol")
    case VArray(_) => Some("Array")
    case VHash(_) => Some("Hash")
    case VRange(_, _, _) => Some("Range")
    case VRegexp(_) => Some("Regexp")
    case VClass(_) => Some("Class")
    case VProc(_) => Some("Proc")
    case VObject(_, c) => c.name
      // `Class.new(Keyword, &block)` is anonymous
    case VKeyword(_, _) => None
    case VDeclContext(_) => Some("NeuronCheckSystem::DeclarationContext")
  }

  /** Characters `String#inspect` writes unescaped. */
  predicate PlainChar(c: char)
  {
    ' ' <= c <= '~' && c != '"' && c != '\\' && c != '#'
  }

  predicate IdentifierChar(c: char)
  {
    'a' <= c <= 'z' || 'A' <= c <= 'Z' || '0' <= c <= '9' || c == '_'
  }

  /** A symbol name `Symbol#inspect` writes bare after the colon. */
  predicate IdentifierName(n: string)
  {
    |n| > 0 && !IsDigit(n[0]) && forall i :: 0 <= i < |n| ==> IdentifierChar(n[i])
  }

  /**
   * `value.inspect`, written out for the values whose rendering the
   * engine's messages show; a string with characters that need escaping,
   * an operator symbol, an anonymous class and the opaque kinds of value
   * are rendered by the world.
   */
  function Inspect(w: World, v: Value): (r: string)
    ensures v.VArray? ==> |r| >= 2 && r[0] == '[' && r[|r| - 1] == ']'
    ensures v.VHash? ==> |r| >= 2 && r[0] == '{' && r[|r| - 1] == '}'
    ensures v.VClass? && v.cls.name.Some? ==> r == v.cls.name.value
    decreases v
  {
    match v
    case VNil => "nil"
    case VTrue => "true"
    case VFalse => "false"
    case VInt(i) => IntToString(i)
    case VStr(s) =>
      if forall i :: 0 <= i < |s| ==> PlainChar(s[i]) then "\"" + s + "\"" else w.inspectOther(v)
    case VSym(n) => if IdentifierName(n) then ":" + n else w.inspectOther(v)
    case VArray(items) => "[" + InspectItems(w, items) + "]"
    case VHash(entries) => "{" + InspectEntries(w, entries) + "}"
    case VRange(a, b, ex) => IntToString(a) + (if ex then "..." else "..") + IntToString(b)
    case VRegexp(src) => "/" + src + "/"
    case VClass(c) => if c.name.Some? then c.name.value else w.inspectOther(v)
    case _ => w.inspectOther(v)
  }

  /** the elements' inspections joined by ", " */
  function InspectItems(w: World, items: seq<Value>): string
    decreases items
  {
    if |items| == 0 then ""
    else if |items| == 1 then Inspect(w, items[0])
    else Inspect(w, items[0]) + ", " + InspectItems(w, items[1..])
  }

  /** `key=>value` pairs joined by ", " */
  function InspectEntries(w: World, entries: seq<Entry>): string
    decreases entries
  {
    if |entries| == 0 then ""
    else
      var e := entries[0];
      assert e.key < e && e.val < e;
      var head := Inspect(w, e.key) + "=>" + Inspect(w, e.val);
      if |entries| == 1 then head else head + ", " + InspectEntries(w, entries[1..])
  }

  /** `value.to_s` */
  function ToS(w: World, v: Value): string
  {
    match v
    case VNil => ""
    case VTrue => "true"
    case VFalse => "false"
    case VInt(i) => IntToString(i)
    case VStr(s) => s
    case VSym(n) => n
    case VClass(c) => if c.name.Some? then c.name.value else w.inspectOther(v)
    case _ => w.toSOther(v)
  }

  /** `Hash#update` with one key: replaces the value in place, or appends the key. */
  function Put(fields: seq<Field>, key: string, val: Json): seq<Field>
  {
    if |fields| == 0 then [Field(key, val)]
    else if fields[0].key == key then [Field(key, val)] + fields[1..]
    else [fields[0]] + Put(fields[1..], key, val)
  }

  /** `Hash#update` with another Hash, key by key in its order. */
  function Update(fields: seq<Field>, more: seq<Field>): seq<Field>
    decreases |more|
  {
    if |more| == 0 then fields else Update(Put(fields, more[0].key, more[0].val), more[1..])
  }

  /** `Hash#delete` */
  function Delete(fields: seq<Field>, key: string): (r: seq<Field>)
    ensures forall i :: 0 <= i < |r| ==> r[i].key != key
    ensures |r| <= |fields|
  {
    if |fields| == 0 then []
    else if fields[0].key == key then Delete(fields[1..], key)
    else [fields[0]] + Delete(fields[1..], key)
  }

  /** `hash[key]` */
  function Lookup(fields: seq<Field>, key: string): Option<Json>
  {
    if |fields| == 0 then None
    else if fields[0].key == key then Some(fields[0].val)
    else Lookup(fields[1..], key)
  }

  /** Writing a key makes reading it give the value written; other keys keep theirs. */
  lemma {:induction false} PutThenLookup(fields: seq<Field>, key: string, val: Json, other: string)
    ensures Lookup(Put(fields, key, val), key) == Some(val)
    ensures other != key ==> Lookup(Put(fields, key, val), other) == Lookup(fields, other)
  {
    if |fields| > 0 && fields[0].key != key {
      PutThenLookup(fields[1..], key, val, other);
    }
  }

  /** Reading a three-field record with distinct keys. */
  lemma LookupThree(a: Field, b: Field, c: Field)
    requires a.key != b.key && a.key != c.key && b.key != c.key
    ensures Lookup([a, b, c], a.key) == Some(a.val)
    ensures Lookup([a, b, c], b.key) == Some(b.val)
    ensures Lookup([a, b, c], c.key) == Some(c.val)
  {
    assert [a, b, c][1..] == [b, c];
    assert [b, c][1..] == [c];
    assert Lookup([b, c], c.key) == Lookup([c], c.key) == Some(c.val);
  }

  /** Writing a key no field has adds it at the end. */
  lemma {:induction false} PutNewKeyAppends(fields: seq<Field>, key: string, val: Json)
    requires forall i :: 0 <= i < |fields| ==> fields[i].key != key
    ensures Put(fields, key, val) == fields + [Field(key, val)]
  {
    if |fields| > 0 {
      PutNewKeyAppends(fields[1..], key, val);
      assert [fields[0]] + (fields[1..] + [Field(key, val)]) == fields + [Field(key, val)];
    }
  }

  /** `Hash#delete` leaves nothing to read under the key. */
  lemma {:induction false} DeleteThenLookup(fields: seq<Field>, key: string)
    ensures Lookup(Delete(fields, key), key) == None
  {
    AbsentKey(Delete(fields, key), key);
  }

  /** A key that no field has reads as absent. */
  lemma {:induction false} AbsentKey(fields: seq<Field>, key: string)
    requires forall i :: 0 <= i < |fields| ==> fields[i].key != key
    ensures Lookup(fields, key) == None
  {
    if |fields| > 0 {
      AbsentKey(fields[1..], key);
    }
  }

  /** `Hash#update` keeps what it is not given: a key the other Hash lacks reads as before. */
  lemma {:induction false} UpdateKeepsOthers(fields: seq<Field>, more: seq<Field>, key: string)
    requires forall i :: 0 <= i < |more| ==> more[i].key != key
    ensures Lookup(Update(fields, more), key) == Lookup(fields, key)
    decreases |more|
  {
    if |more| > 0 {
      PutThenLookup(fields, more[0].key, more[0].val, key);
      UpdateKeepsOthers(Put(fields, more[0].key, more[0].val), more[1..], key);
    }
  }

  /** A parameter of a method, as `Method#parameters` reports it. */
  datatype ParamKind = Req | Opt | Rest | KeyReq | Key | KeyRest | Block
  datatype Param = Param(kind: ParamKind, name: string)

  /** A method (an UnboundMethod) as the engine sees it: its name and parameters. */
  datatype MethodDef = MethodDef(name: string, params: seq<Param>)

  /** The class or module a method is defined on: the class itself, or its singleton class. */
  datatype Owner = Owner(cls: ClassRef, singleton: bool)
}
