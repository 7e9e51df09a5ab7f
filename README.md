# NeuronCheck, modelled in Dafny

NeuronCheck is a Ruby library for runtime contracts. A class or module that extends `NeuronCheck` can put a declaration in front of a method or an attribute definition with `ndecl`. A declaration lists argument expectations (`args`), a return expectation (`returns`), pre- and postcondition blocks, and an attribute value expectation (`val`). The shorthand form writes the same thing as `ndecl String, Integer => Symbol`.

When the method is defined, the engine binds the pending declaration to it. From then on each call is traced. The arguments are checked in parameter order, then the precondition is run. When the call returns, the return value and the postcondition are checked. A value that is refused raises `NeuronCheckError`, with a message naming the expectation, the value and the signature. An attribute declaration wraps the reader and/or writer instead.

An expectation is turned into a matcher:

- a value compared with `==`;
- an object compared by identity;
- a class (`kind_of?`);
- a Range or a Regexp;
- an Array of alternatives (an Or);
- `:self`;
- a keyword from the plugin registry: `respondable`, `any`, `block`, `except`, `array_of`, `hash_of`, or one a plugin adds.

The project models this core:

| file | module | what it models |
|---|---|---|
| `errors.dfy` | `Errors` | the three NeuronCheck exception classes and a Ruby exception, as values |
| `text.dfy` | `Text` | the string helpers the messages need: integer printing, joining, repetition |
| `values.dfy` | `Values` | Ruby values, `inspect`, `to_s`, and Hash writes and reads |
| `utils.dfy` | `Utils` | `truncate`, `string_join_using_or_conjunction`, `backtrace_locations_to_captions` and `ordinalize` |
| `matcher.dfy` | `Matchers` | `get_appropriate_matcher`; each matcher's `match?`, captions and meta record; the violation message |
| `matcher_facts.dfy` | `MatcherFacts` | what an Or matcher accepts |
| `plugin.dfy` | `Plugin` | `add_keyword`, `alias_keyword`, `remove_keyword`, the keyword functions and the keyword API |
| `builtin_keyword.dfy` | `BuiltinKeywords` | the six built-in keywords and the `res` alias |
| `cond_block.dfy` | `CondBlocks` | the context a pre/postcondition block runs in: `assert` and `method_missing` |
| `declaration.dfy` | `Declarations` | the Declaration object and its captions and meta record; the declaration block; the shorthand; `ndecl`'s pending declaration |
| `kernel.dfy` | `Kernel` | the engine: declaration tables, the method-added and attribute hooks, call and return checks, the on/off switch, `match?`/`check`, `extended`, and `get_declarations_as_json` |

Ruby's own object model is one value of type `Values.World`. It holds `kind_of?` for classes the model does not fix, `respond_to?`, `inspect` of arbitrary objects, `Regexp#=~`, and what a plugin keyword answers. Every function that needs it takes it as a parameter.

The state the library keeps has these homes:

- A declaration is a value.
- `DeclarationContext`, the receiver of a declaration block, is a class.
- `CheckedModule` is a class holding the instance variables the engine sets on a class or module.
- `Kernel.Engine` holds `METHOD_DECLARATIONS`, `ATTR_DECLARATIONS`, the enabled flag and the last refused argument.
- `Plugin.KeywordRegistry` holds `KEYWORD_CLASSES`.

An anonymous class has no name, so the caption of its kind-of matcher is nil. Most messages interpolate a caption and show that nil as an empty string. The Or caption instead appends its children's captions with `<<`, which raises TypeError on a nil; the model keeps both behaviours.

Where NeuronCheck loops, the model's methods loop with invariants. Each is proved against the function that states what the loop computes.

## Model

| member | source | states |
|---|---|---|
| Utils.LastDigit | lib/neuroncheck/utils.rb:75-90 | the last character of a written number is the digit of `n % 10` |
| Utils.DigitCharInjective | lib/neuroncheck/utils.rb:75-90 | two digits with the same character are the same digit |
| Utils.LastTwoDigits | lib/neuroncheck/utils.rb:76 | `v % 100` is made of the last two written digits |
| Utils.OrdinalizeMatchesWrittenDigits | lib/neuroncheck/utils.rb:75-90 | `ordinalize(n)` is the number followed by the English suffix its last written digits call for: "th" for 11, 12, 13, else "st", "nd", "rd" for 1, 2, 3, else "th" |
| Utils.OrdinalizeSmallExamples | lib/neuroncheck/utils.rb:75-90 | 1st, 2nd, 3rd, 4th, 6th |
| Utils.OrdinalizeTeensExamples | lib/neuroncheck/utils.rb:76-77 | 11th, 12th, 13th |
| Utils.OrdinalizeBeyondTeensExamples | lib/neuroncheck/utils.rb:75-90 | 21st, 22nd, and 113th |
| Utils.Ordinalize | lib/neuroncheck/utils.rb:75-90 | the written number followed by a two-letter suffix, one of "st", "nd", "rd", "th" |
| Utils.OrSeparators | lib/neuroncheck/utils.rb:43-50 | one separator between each two strings, none for one string: " or " before the last and ", " before every other |
| Utils.OrJoin | lib/neuroncheck/utils.rb:41-56 | "" for no strings, the string itself for one; otherwise the first string begins the phrase and " or " and the last string end it |
| Utils.StringJoinUsingOrConjunction | lib/neuroncheck/utils.rb:41-56 | the appending loop builds exactly the or-joined phrase |
| Utils.OrJoinShapes | lib/neuroncheck/utils.rb:41-56 | "" for none, the string for one, "A or B" for two, and for more: the join of all but the last by ", " then " or " and the last |
| Utils.OrJoinThree | lib/neuroncheck/utils.rb:41-56 | `["A", "B", "C"]` gives "A, B or C" |
| Utils.LeadingSpaces | lib/neuroncheck/utils.rb:68 | the length of the leading whitespace run: every character before it is whitespace and the one at it is not |
| Utils.StripLeadingFromOfCaption | lib/neuroncheck/utils.rb:68 | the substitution removes the "from " the caption was given |
| Utils.BacktraceLocationsToCaptions | lib/neuroncheck/utils.rb:59-72 | up to 9 locations: all of them, prefixed with "from " but the first; more: the first 4, a marker counting the omitted frames, and the last 4; the first caption is the bare location |
| Utils.Truncate | lib/neuroncheck/utils.rb:25-38 | a string within the limit is kept; a longer one is cut to the limit (at least the omission's length) and ends in the omission after the string's first characters |
| Utils.TruncateWithinLimit | lib/neuroncheck/utils.rb:25-38 | the result never exceeds a limit at least as long as the omission |
| Utils.TruncateAsWritten | lib/neuroncheck/utils.rb:37 | as written, every string longer than the limit raises (`self` is the Utils module, which has no `[]`) |
| Utils.TruncateAsWrittenRaises | lib/neuroncheck/utils.rb:37 | a 41-character inspection cut at 40 raises as written, and the corrected truncate gives 37 characters and "..." |
| Values.KindOf | lib/neuroncheck/matcher.rb:117-119 | `kind_of?` String, Array, Hash and Proc hold exactly for those values |
| Values.Inspect | lib/neuroncheck/matcher.rb:56-57 | an Array inspects in brackets, a Hash in braces, a named class as its name |
| Values.Delete | lib/neuroncheck/matcher.rb:238 | `Hash#delete` leaves no entry with the key, and never more entries |
| Values.PutThenLookup | lib/neuroncheck/matcher.rb:238 | a Hash write is read back, and other keys keep their values |
| Matchers.Resolve | lib/neuroncheck/matcher.rb:7-37 | a matcher made from an expectation carries the declaration's locations; the only error is DeclarationError |
| Matchers.ResolveAll | lib/neuroncheck/matcher.rb:171-173 | one matcher per child expectation, each with the same locations |
| Matchers.ResolveSucceedsIff | lib/neuroncheck/matcher.rb:7-37 | an expectation resolves exactly when it (and, for an Array, each element) is one of the accepted kinds |
| Matchers.ResolveArraySucceedsIff | lib/neuroncheck/matcher.rb:27-28 | an Array expectation resolves exactly when each of its elements does |
| Matchers.UnusableRefused | lib/neuroncheck/matcher.rb:7-37 | a Hash, a Proc, a plain object or a declaration block's receiver is refused, and is not an accepted kind |
| Matchers.ScalarResolves | lib/neuroncheck/matcher.rb:7-37 | every other value that is not an Array resolves, and is an accepted kind |
| Matchers.ResolveAllSucceedsIff | lib/neuroncheck/matcher.rb:171-173 | a list resolves exactly when every element does |
| Matchers.SelfSymbolComesFirst | lib/neuroncheck/matcher.rb:11-15 | `:self` is the Self matcher; any other Symbol compares with `==` |
| Matchers.HashIsRejected | lib/neuroncheck/matcher.rb:33-34 | a Hash is refused with "Hash cannot be usable for NeuronCheck check parameter" and its inspection |
| Matchers.EmptyOrMatchesNothing | lib/neuroncheck/matcher.rb:176-179 | `[]` accepts nothing |
| Matchers.StringOrNil | lib/neuroncheck/matcher.rb:170-179 | `[String, nil]` accepts exactly Strings and nil |
| Matchers.ClassOrNilResolves | lib/neuroncheck/matcher.rb:170-174 | `[C, nil]` resolves to the Or of a kind-of `C` matcher and an identity matcher for nil |
| Matchers.ClassOrNilMatches | lib/neuroncheck/matcher.rb:176-179 | that Or accepts exactly the values of kind `C` and nil |
| Matchers.MatchAnyOne | lib/neuroncheck/matcher.rb:178 | an Or of one matcher answers as that matcher, errors included |
| Matchers.MatchAnyTwo | lib/neuroncheck/matcher.rb:178 | an Or of two matchers asks the second only when the first refuses, and stops at the first error |
| Matchers.RangeExamples | lib/neuroncheck/matcher.rb:132-135 | `1..100` holds 1 and 100 but not 0, 101 or ""; `1...100` does not hold 100 |
| Matchers.RegexpOnlyStrings | lib/neuroncheck/matcher.rb:144-146 | a Regexp accepts exactly Strings it matches |
| Matchers.SelfMatchesReceiver | lib/neuroncheck/matcher.rb:202-204 | `:self` accepts exactly the receiver it is asked with |
| Matchers.Match | lib/neuroncheck/matcher.rb:176-224 | only an Or matcher (through a child) or a keyword matcher can raise while matching |
| Matchers.Caption | lib/neuroncheck/matcher.rb:121-229 | only an Or or a keyword matcher can fail to give a caption; a kind-of matcher reads as its class name, "" for an anonymous class, which is how a message interpolating its nil name shows it |
| Matchers.RawCaption | lib/neuroncheck/matcher.rb:121-123 | the caption as the child gives it to the Or: nil exactly for an anonymous class, otherwise the child's caption |
| Matchers.CaptionAll | lib/neuroncheck/matcher.rb:181-185 | one raw caption per child |
| Matchers.CaptionAllEach | lib/neuroncheck/matcher.rb:182 | the children's captions succeed together, and the i-th is the i-th child's raw caption |
| Matchers.OrJoinCaptions | lib/neuroncheck/utils.rb:41-56 | joining succeeds exactly when no caption is nil, giving the or-join of the captions; a nil raises TypeError from `ret << str` |
| Matchers.Present | lib/neuroncheck/matcher.rb:182 | the captions unwrapped one for one, in order |
| Matchers.OrCaptionOfAnonymousChild | lib/neuroncheck/matcher.rb:181-185 | an Or with a child for an anonymous class raises TypeError when asked its caption |
| Matchers.OrCaptionJoinsChildren | lib/neuroncheck/matcher.rb:181-185 | with no such child, the Or's caption is the or-join of its children's captions in order |
| Matchers.ShortCaption | lib/neuroncheck/matcher.rb:80-233 | only an Or or a keyword matcher can fail; a kind-of matcher's short caption is its class's inspection |
| Matchers.ShortCaptionAll | lib/neuroncheck/matcher.rb:186-188 | one short caption per child |
| Matchers.ShortCaptionAllEach | lib/neuroncheck/matcher.rb:187 | the children's short captions succeed together, and the i-th is the i-th child's |
| Matchers.OrShortCaptionLists | lib/neuroncheck/matcher.rb:186-188 | an Or's short caption is its children's short captions, in order, joined by ", " inside brackets |
| Matchers.MethodCaptions | lib/neuroncheck/builtin_keyword.rb:16 | each method name written as "#name" |
| Matchers.Inspections | lib/neuroncheck/builtin_keyword.rb:21 | each name's inspection, one for one |
| Matchers.NameStrings | lib/neuroncheck/builtin_keyword.rb:25 | each name as its String, one for one |
| Matchers.MetaAll | lib/neuroncheck/matcher.rb:190-192 | one meta record per child |
| Matchers.Meta | lib/neuroncheck/matcher.rb:84-90 | a matcher's meta record is a JSON object; only an Or or a keyword matcher can fail to give one |
| Matchers.MetaAllEach | lib/neuroncheck/matcher.rb:191 | the children's records succeed together, and the i-th is the i-th child's record |
| Matchers.OrMetaListsChildren | lib/neuroncheck/matcher.rb:84-192 | an Or's record has type "OrMatcher", a nil expectation, and `child_matchers` listing every child's record in order |
| Matchers.KindOfMetaNamesClass | lib/neuroncheck/matcher.rb:125-127 | a kind-of matcher's record has type "KindOfMatcher" and the class's name, nil for an anonymous class, as its expectation |
| Matchers.KeywordMetaExpected | lib/neuroncheck/matcher.rb:236-239 | a keyword matcher's record has no `expected` unless the keyword's own parameters give one; `respondable`'s parameters give it the list of names |
| Matchers.ErrorMessage | lib/neuroncheck/matcher.rb:51-74 | the message can be built exactly when the caption and the signature can; otherwise it raises the caption's error, or else the signature's |
| Matchers.ExpectationLine | lib/neuroncheck/matcher.rb:56 | the line starts "<context> must be <caption>, but <phrase> ", shows the inspection whole exactly when it has at most 40 characters, and never shows more than 40 characters |
| Matchers.GotLine | lib/neuroncheck/matcher.rb:57 | the "got:" line shows the whole inspection after 15 columns |
| Matchers.SignatureLine | lib/neuroncheck/matcher.rb:60-64 | "" without a signature, the "signature:" line with one, and the signature's error when computing it raises |
| Matchers.DeclaredAtBlock | lib/neuroncheck/matcher.rb:66-71 | empty exactly when there are no locations; otherwise it starts "  declared at: " and the first location and ends in a blank line |
| Matchers.MessageTextLayout | lib/neuroncheck/matcher.rb:51-74 | the message starts with the expectation and got lines, then the signature line when there is a signature, and ends with the declared-at block |
| Matchers.ErrorMessageLayout | lib/neuroncheck/matcher.rb:51-74 | the same layout for a matcher's message, with its caption, the inspected value and its own locations |
| Matchers.AttributeMessageText | lib/neuroncheck/matcher.rb:51-74 | the text of that message, line by line |
| Matchers.AttributeMessageExample | lib/neuroncheck/matcher.rb:51-74 | the full message for an attribute writer given 1 where `String` was declared |
| MatcherFacts.OrMatchIff | lib/neuroncheck/matcher.rb:176-179 | an Or accepts exactly when some child accepts, once every child can answer |
| MatcherFacts.SomeLaterChildMatches | lib/neuroncheck/matcher.rb:178 | a child past the first that accepts makes the Or's children accept |
| MatcherFacts.SomeChildMatchesNotFirst | lib/neuroncheck/matcher.rb:178 | with the first child refusing, some later one accepts |
| MatcherFacts.ChildrenAnswerTail | lib/neuroncheck/matcher.rb:178 | every child answering means the later children answer |
| MatcherFacts.MatchAnyStep | lib/neuroncheck/matcher.rb:178 | one step of `any?`: an accepting first child decides it, otherwise the later children do |
| MatcherFacts.MatchAnyFirstAccepts | lib/neuroncheck/matcher.rb:178 | a first child that accepts makes `any?` true and is an accepting child |
| MatcherFacts.MatchAnyFirstRefuses | lib/neuroncheck/matcher.rb:178 | a first child that refuses leaves both `any?` and the existence of an accepting child to the later children |
| MatcherFacts.MatchAnyIff | lib/neuroncheck/matcher.rb:178 | `any?` over the children is true exactly when some child accepts |
| Plugin.AddKeyword | lib/neuroncheck/plugin.rb:12-34 | a taken name is refused first, then a body without the three methods; otherwise only the new name is added, mapped to its class |
| Plugin.AliasKeyword | lib/neuroncheck/plugin.rb:37-55 | a taken name or an unknown original is refused; otherwise the new name is added, with the original's class under the new name |
| Plugin.RemoveKeyword | lib/neuroncheck/plugin.rb:74-92 | an unknown name or a built-in keyword is refused; otherwise exactly that name goes |
| Plugin.CallKeyword | lib/neuroncheck/plugin.rb:58-71 | a missing function is NoMethodError; a wrong parameter count is refused; otherwise a keyword instance holding the parameters |
| Plugin.KeywordRegistry.constructor | lib/neuroncheck/plugin.rb:9 | the registry starts empty |
| Plugin.KeywordRegistry.Add | lib/neuroncheck/plugin.rb:12-34 | the table becomes what `AddKeyword` gives, or stays on error |
| Plugin.KeywordRegistry.Alias | lib/neuroncheck/plugin.rb:37-55 | the table becomes what `AliasKeyword` gives, or stays on error |
| Plugin.KeywordRegistry.Remove | lib/neuroncheck/plugin.rb:74-92 | the table becomes what `RemoveKeyword` gives, or stays on error |
| Plugin.KeywordRegistry.Invoke | lib/neuroncheck/plugin.rb:58-71 | calling a keyword function is `CallKeyword` on the current table |
| Plugin.AddThenRemove | lib/neuroncheck/plugin.rb:12-92 | adding a keyword that is not built in and removing it restores the table |
| Plugin.RemoveThenAddAgain | lib/neuroncheck/plugin.rb:74-92 | after a removal the name can be added again and called |
| Plugin.AliasBehavesAsOriginal | lib/neuroncheck/plugin.rb:48-51 | an alias has the original's behaviour, arity and built-in flag, under its own name |
| Plugin.KeywordDefaults | lib/neuroncheck/plugin.rb:96-110 | a keyword without those methods gives its caption as short caption and `{}` as its parameters |
| Plugin.ApiMatchDelegates | lib/neuroncheck/plugin.rb:118-124 | the keyword API resolves the expectation with the keyword's locations and matches with its receiver |
| BuiltinKeywords.BuiltinTableContents | lib/neuroncheck/builtin_keyword.rb:6-165 | loading the built-ins into an empty table registers exactly the seven names, all built in |
| BuiltinKeywords.RegisterBuiltinsSteps | lib/neuroncheck/builtin_keyword.rb:6-165 | the registrations, in the file's order, all succeed and build the seven-entry built-in table |
| BuiltinKeywords.BuiltinsCannotBeRemoved | lib/neuroncheck/plugin.rb:81-83 | removing any built-in name, `res` included, is refused |
| BuiltinKeywords.ArrayOfCannotBeAddedAgain | lib/neuroncheck/plugin.rb:14-16 | adding `array_of` again fails whatever the body |
| BuiltinKeywords.LoadBuiltins | lib/neuroncheck/builtin_keyword.rb:6-165 | the file's registrations, run in order on the registry, give the built-in table |
| BuiltinKeywords.AnyAcceptsEverything | lib/neuroncheck/builtin_keyword.rb:37-60 | `any` accepts every value and reads "any value" / "any" |
| BuiltinKeywords.BlockAcceptsProcOrNil | lib/neuroncheck/builtin_keyword.rb:63-78 | `block` accepts exactly a Proc or nil, and reads "block or nil" |
| BuiltinKeywords.ExceptNegates | lib/neuroncheck/builtin_keyword.rb:82-97 | `except(x)` accepts exactly what x refuses, and reads "any value except ..." / "except(...)" |
| BuiltinKeywords.ExceptMatch | lib/neuroncheck/builtin_keyword.rb:87-89 | `except(x)` answers the negation of x's answer, and fails as x fails |
| BuiltinKeywords.ExceptCaption | lib/neuroncheck/builtin_keyword.rb:91-93 | `except(x)` reads "any value except <caption of x>" |
| BuiltinKeywords.ExceptShortCaption | lib/neuroncheck/builtin_keyword.rb:95-97 | `except(x)` reads "except(<short caption of x>)" |
| BuiltinKeywords.EveryItemMatchesCons | lib/neuroncheck/builtin_keyword.rb:119 | the first item and the rest matching means every item matches |
| BuiltinKeywords.EveryItemMatchesTail | lib/neuroncheck/builtin_keyword.rb:119 | every item matching means the rest do |
| BuiltinKeywords.EveryItemAnswersTail | lib/neuroncheck/builtin_keyword.rb:119 | every item answering means the rest do |
| BuiltinKeywords.AllItemsMatchStep | lib/neuroncheck/builtin_keyword.rb:119 | one step of the items' `all?`: the first item, then the rest |
| BuiltinKeywords.EveryItemMatchesFirstAccepts | lib/neuroncheck/builtin_keyword.rb:119 | a first item that matches leaves "every item matches" to the rest |
| BuiltinKeywords.AllItemsMatchIff | lib/neuroncheck/builtin_keyword.rb:119 | `all?` over the items is true exactly when every item matches |
| BuiltinKeywords.ArrayOfAccepts | lib/neuroncheck/builtin_keyword.rb:115-120 | `array_of(e)` refuses every non-Array, accepts `[]`, and accepts an Array exactly when every item matches e |
| BuiltinKeywords.ArrayOfCaption | lib/neuroncheck/builtin_keyword.rb:122-124 | "array of <caption of e>", also as its short caption |
| BuiltinKeywords.EveryEntryMatchesCons | lib/neuroncheck/builtin_keyword.rb:147 | the first entry and the rest matching means every entry matches |
| BuiltinKeywords.EveryEntryMatchesTail | lib/neuroncheck/builtin_keyword.rb:147 | every entry matching means the rest do |
| BuiltinKeywords.EveryEntryAnswersTail | lib/neuroncheck/builtin_keyword.rb:147 | every entry answering means the rest do |
| BuiltinKeywords.AllEntriesMatchStep | lib/neuroncheck/builtin_keyword.rb:147 | one step of the entries' `all?`, key first, then value |
| BuiltinKeywords.AllEntriesMatchIff | lib/neuroncheck/builtin_keyword.rb:147 | `all?` over the entries is true exactly when every key and every value matches |
| BuiltinKeywords.HashOfAccepts | lib/neuroncheck/builtin_keyword.rb:143-148 | `hash_of(k, v)` refuses every non-Hash and accepts a Hash exactly when every entry matches |
| BuiltinKeywords.HashOfCaption | lib/neuroncheck/builtin_keyword.rb:150-156 | "hash that has keys of K and values of V, {Ks => Vs}" |
| BuiltinKeywords.HashOfShortCaption | lib/neuroncheck/builtin_keyword.rb:154-156 | the short caption of `hash_of(k, v)` is "{Ks => Vs}" |
| BuiltinKeywords.RespondableNeedsEveryName | lib/neuroncheck/builtin_keyword.rb:11-13 | `respondable(*names)` accepts exactly a value responding to every name |
| BuiltinKeywords.RespondsToAllIff | lib/neuroncheck/builtin_keyword.rb:11-13 | names that are all Symbols or Strings answer whether the value responds to every one of them |
| BuiltinKeywords.RespondableOneNameCaptions | lib/neuroncheck/builtin_keyword.rb:15-22 | `respondable(:name)` reads "respondable to #name" and "respondable(:name)" |
| CondBlocks.Assert | lib/neuroncheck/cond_block.rb:21-40 | no block is a DeclarationError; a truthy block goes on; a falsy one throws the "assertion failed" message |
| CondBlocks.AssertionFailedLayout | lib/neuroncheck/cond_block.rb:29-35 | the message names the block and the location on lines of its own |
| CondBlocks.MethodMissing | lib/neuroncheck/cond_block.rb:9-19 | a name the checked object responds to is forwarded exactly when instance methods are allowed, refused otherwise; any other name is NameError |
| CondBlocks.RunCondFirstFailure | lib/neuroncheck/cond_block.rb:21-40 | a block completes exactly when every step goes on; otherwise it ends as its first step that does not |
| CondBlocks.RunCond | lib/neuroncheck/kernel.rb:311-317 | a first step that does not go on ends the block; a block that does not complete ends as one of its steps |
| Declarations.NameOnlyEndsWithName | lib/neuroncheck/declaration.rb:199-234 | the name-only caption exists exactly when the declaration is bound; it ends with "#attr", ".method" or "#method", and is the bare name for Object's methods |
| Declarations.SignatureCaptionNameOnly | lib/neuroncheck/declaration.rb:199-234 | present exactly when the declaration is bound to a class and to a method or an attribute |
| Declarations.SingletonAndInstanceCaptions | lib/neuroncheck/declaration.rb:216-229 | a singleton method reads "Foo.bar" and an instance method "Foo#bar" |
| Declarations.ParamCaptions | lib/neuroncheck/declaration.rb:250-261 | one "name:<short caption>" or "name:any" per parameter, in order |
| Declarations.ParamCaptionsStep | lib/neuroncheck/declaration.rb:250-261 | one more parameter adds its caption at the end |
| Declarations.ParamCaptionsFailFrom | lib/neuroncheck/declaration.rb:256-257 | the first caption that fails is the failure of every longer prefix |
| Declarations.BuildParamsPart | lib/neuroncheck/declaration.rb:248-263 | the loop builds "(a:A, b:any)" for a method with parameters and "" for one without |
| Declarations.BuildSignatureCaption | lib/neuroncheck/declaration.rb:237-274 | the appending code gives the specification's signature: nil if unbound, the attribute's value caption, or parameters and the return caption |
| Declarations.SignatureCaption | lib/neuroncheck/declaration.rb:237-274 | nil exactly when the name-only caption is; otherwise it begins with the name-only caption; it can fail only for a bound declaration |
| Declarations.FooMethodParamCaptions | lib/neuroncheck/declaration.rb:250-261 | for `foo_method(value, rate)` with `args String`: "value:String" and "rate:any" |
| Declarations.FooMethodParamsPart | lib/neuroncheck/declaration.rb:248-263 | that parameter part is "(value:String, rate:any)" |
| Declarations.FooMethodSignature | lib/neuroncheck/declaration.rb:237-274 | and the signature is "Foo#foo_method(value:String, rate:any) -> String" |
| Declarations.DeclarationMeta | lib/neuroncheck/declaration.rb:276-293 | 5 fields for an attribute, 6 for a method, ending with the name-only caption and the two source locations; it fails exactly when a caption or meta record does |
| Declarations.ApplyStep | lib/neuroncheck/declaration.rb:123-146 | `args` replaces the argument matchers, `returns` the return matcher, `val` the attribute matcher, and `precond`/`postcond` the block and its flag, a missing block storing nil; nothing else changes |
| Declarations.StepSucceedsIff | lib/neuroncheck/declaration.rb:123-146 | a step fails exactly when its expectation does not resolve |
| Declarations.BuildSucceedsIff | lib/neuroncheck/declaration.rb:49-61 | a whole block succeeds exactly when each step does |
| Declarations.Build | lib/neuroncheck/declaration.rb:49-61 | a block never binds the declaration or marks it shorthand: those fields come out as they went in; its only error is DeclarationError |
| Declarations.LaterReturnsWins | lib/neuroncheck/declaration.rb:128-131 | a second `returns` replaces the first |
| Declarations.PrecondWithoutBlockClears | lib/neuroncheck/declaration.rb:133-136 | `precond` called again without a block stores nil, clearing the condition an earlier call set |
| Declarations.BuildFailsFrom | lib/neuroncheck/declaration.rb:54 | a failing step is the failure of the whole block |
| Declarations.DeclarationContext.constructor | lib/neuroncheck/declaration.rb:119-121 | a context starts with a fresh declaration |
| Declarations.DeclarationContext.Perform | lib/neuroncheck/declaration.rb:123-146 | one block call updates the declaration as `ApplyStep` says |
| Declarations.DeclarationContext.Run | lib/neuroncheck/declaration.rb:49-61 | running the block leaves the declaration the block builds, or fails with its first failing step |
| Declarations.DeclarationContext.MarkShorthand | lib/neuroncheck/declaration.rb:98-108 | the shorthand flag, the locations, and the top-level matchers moved to those locations |
| Declarations.ShorthandSplitArrow | lib/neuroncheck/declaration.rb:69-85 | for any leading expectations P, `P..., K => R` reads as arguments P then K and return R, except that a lone Array K means no arguments |
| Declarations.ShorthandSplitWithoutArrow | lib/neuroncheck/declaration.rb:69-85 | without a final one-entry Hash there is no return expectation and every expectation is an argument, except that a lone Array means none |
| Declarations.Relocate | lib/neuroncheck/declaration.rb:103-105 | every top-level matcher gets the given locations, and nothing else about it changes: its kind, expectation and children stay as they were |
| Declarations.ArrowSplit | lib/neuroncheck/declaration.rb:71-76 | `A, B => R` reads as arguments A, B and return R |
| Declarations.ResolveTwo | lib/neuroncheck/declaration.rb:125 | two resolvable expectations give their two matchers in order |
| Declarations.ShorthandOfSplit | lib/neuroncheck/declaration.rb:88-108 | split arguments and a return that resolve give a shorthand declaration holding their matchers, moved to the `ndecl` call's locations, with no return check for a falsy return |
| Declarations.ShorthandMeaning | lib/neuroncheck/declaration.rb:64-112 | `ndecl A, B => R` declares A and B and, when R is truthy, R, all at the call's locations |
| Declarations.ShorthandNoArguments | lib/neuroncheck/declaration.rb:82-85 | `ndecl [] => R` declares no argument check and the return R |
| Declarations.ShorthandDeclaration | lib/neuroncheck/declaration.rb:64-112 | a shorthand declaration is marked shorthand with the call's locations, one argument matcher per split argument, and every matcher moved to the call's locations; its only error is DeclarationError |
| Declarations.RegisterAll | lib/neuroncheck/kernel.rb:90-132 | every name maps to the value and every other key is kept |
| Declarations.CheckedModule.constructor | lib/neuroncheck/kernel.rb:409-436 | a class starts uninitialised, without a pending declaration or wrappers |
| Declarations.CheckedModule.NdeclMain | lib/neuroncheck/declaration.rb:27-46 | a declaration still pending is "repeated declarations"; otherwise the new declaration, if it can be made, becomes pending |
| Declarations.CheckedModule.NdeclMainWithBlock | lib/neuroncheck/declaration.rb:49-61 | the block's declaration, with the call's locations, becomes pending |
| Declarations.CheckedModule.NdeclMainWithoutBlock | lib/neuroncheck/declaration.rb:64-112 | the shorthand declaration becomes pending |
| Declarations.CheckedModule.SetPending | lib/neuroncheck/kernel.rb:135 | only the pending declaration changes |
| Declarations.CheckedModule.RegisterAccessors | lib/neuroncheck/kernel.rb:90-124 | each name gets a reader and/or a writer check with the attribute's matcher |
| Kernel.FirstRefused | lib/neuroncheck/kernel.rb:280-298 | the index found is within the items |
| Kernel.FirstRefusedMeaning | lib/neuroncheck/kernel.rb:280-298 | no index exactly when every item is accepted; otherwise the item found is refused and every earlier one accepted |
| Kernel.UndeclaredParamsUnchecked | lib/neuroncheck/kernel.rb:266 | parameters past the declared matchers are never checked |
| Kernel.Violation | lib/neuroncheck/kernel.rb:275 | a refused value always fails, with the matcher's message or the error computing it |
| Kernel.CallCheckPasses | lib/neuroncheck/kernel.rb:251-329 | a call passes exactly when no argument is refused and the precondition completes; a refused argument fails the call |
| Kernel.CallCheck | lib/neuroncheck/kernel.rb:251-329 | an error checking the arguments is raised as is; a passing call had no refused argument |
| Kernel.ReturnCheck | lib/neuroncheck/kernel.rb:332-380 | a return value the matcher does not accept fails, an error matching it is raised as is, and the return passes exactly when the value is accepted and the postcondition completes |
| Kernel.FirstBadBlockParam | lib/neuroncheck/kernel.rb:184-193 | none exactly when every block parameter is declared `any` or `block`; otherwise the first that is not |
| Kernel.HookError | lib/neuroncheck/kernel.rb:176-198 | the binding is refused exactly when there are more matchers than parameters, a block parameter is declared with something else, or `initialize` has a return declaration; the error is a DeclarationError |
| Kernel.AttrTarget | lib/neuroncheck/kernel.rb:67-84 | accepted exactly when a shorthand has at most one argument, or a block has none, and neither has a return; the matcher is the shorthand's argument or the block's `val` |
| Kernel.AttrCheckPasses | lib/neuroncheck/kernel.rb:93-119 | an attribute check passes exactly when the matcher accepts; otherwise it fails with the "value of attribute `Class#name'" message |
| Kernel.AttrCheck | lib/neuroncheck/kernel.rb:93-119 | an attribute check passes exactly when there is no matcher or it accepts the value; an error matching is raised as is |
| Kernel.CheckAgreesWithMatch | lib/neuroncheck/kernel.rb:479-500 | `check` passes exactly when `match?` is true; it raises `match?`'s error, or a message with no signature and no locations |
| Kernel.MatchP | lib/neuroncheck/kernel.rb:479-487 | an expectation that does not resolve raises its error; otherwise the matcher, with no locations, answers with nil as the receiver, so `:self` accepts exactly nil |
| Kernel.Check | lib/neuroncheck/kernel.rb:490-500 | an expectation that does not resolve raises its error; the check passes exactly when the matcher accepts the value |
| Kernel.ViolationWithoutLocations | lib/neuroncheck/kernel.rb:497 | a violation with no declaration and no locations is the expectation line followed by the got line |
| Kernel.Engine.constructor | lib/neuroncheck/kernel.rb:232-235 | empty tables, checks enabled |
| Kernel.Engine.InitializeModule | lib/neuroncheck/kernel.rb:409-436 | a second call changes nothing; the first gives the class and its singleton class empty tables, no pending declaration and the hook on |
| Kernel.Engine.Extend | lib/neuroncheck/kernel.rb:542-564 | a non-module is a ScriptError; a second extension changes nothing; otherwise the class is initialised and marked extended |
| Kernel.Engine.Ndecl | lib/neuroncheck/declaration.rb:10-18 | initialises the class if needed (its tables empty, the hook on), then `ndecl`'s result on the pending declaration; an initialised class keeps its tables and hook; attribute wrappers, the enabled flag and the last argument error never change |
| Kernel.Engine.ToplevelNdecl | lib/neuroncheck/kernel.rb:570-590 | a top-level `ndecl` extends Object if needed, then declares on it: a repeated declaration keeps the pending one, an initialised Object keeps its tables and hook; wrappers, the enabled flag and the last argument error never change |
| Kernel.Engine.RegisterMethod | lib/neuroncheck/kernel.rb:170 | exactly that table entry is set |
| Kernel.Engine.MethodAdded | lib/neuroncheck/kernel.rb:141-203 | nothing happens with the hook off or nothing pending; otherwise the bound declaration is registered first, then checked: refused, it stays pending; accepted, nothing is pending |
| Kernel.Engine.AttrDefined | lib/neuroncheck/kernel.rb:65-137 | nothing pending: nothing happens; a refused declaration changes nothing; otherwise reader/writer checks for every name, every name registered with the declaration bound to the last name, and nothing pending |
| Kernel.Engine.RegisterAttributes | lib/neuroncheck/kernel.rb:127-132 | every name registered in the class's attribute table |
| Kernel.Engine.DefineAttributes | lib/neuroncheck/kernel.rb:13-63 | `attr`, `attr_reader`, `attr_writer`, `attr_accessor` do what `AttrDefined` does, with their own reader/writer choice (`attr` with its one name), and leave the hook on; a refused target changes no wrapper, and the enabled flag and the last argument error never change |
| Kernel.Engine.ReadAttribute | lib/neuroncheck/kernel.rb:93-104 | the corrected reader wrapper: it returns the stored value once its check passes, and raises the check's error otherwise |
| Kernel.ReaderAsWritten | lib/neuroncheck/kernel.rb:93-104 | the wrapper as written returns nil after a passing check, since the `if` around the check is its last expression; a refused value raises the check's error |
| Kernel.Reader | lib/neuroncheck/kernel.rb:93-104 | the intended wrapper: a successful read yields the stored value, and a read fails exactly when a wrapper exists and its check fails |
| Kernel.ReaderAsWrittenReadsNil | lib/neuroncheck/kernel.rb:98-103 | an attribute declared without a matcher that holds 1 reads as nil through the wrapper as written, and as 1 through the corrected one |
| Kernel.ReaderAsWrittenDiffers | lib/neuroncheck/kernel.rb:93-104 | the two wrappers differ exactly on a passing check of a non-nil value |
| Kernel.Engine.WriteAttribute | lib/neuroncheck/kernel.rb:108-120 | a writer checks before it stores; a refused value is not stored |
| Kernel.Engine.TraceMethodCall | lib/neuroncheck/kernel.rb:251-329 | the loop gives the call check, and records the receiver and method exactly when an argument was refused |
| Kernel.Engine.TraceMethodReturn | lib/neuroncheck/kernel.rb:332-380 | after a refused argument of the same receiver and method, the return check is skipped once and the record cleared; otherwise the return value and postcondition are checked |
| Kernel.Engine.OnCall | lib/neuroncheck/kernel.rb:208-228 | only declared methods are checked, and only while checks are enabled |
| Kernel.Engine.OnReturn | lib/neuroncheck/kernel.rb:208-228 | the same for returns |
| Kernel.Engine.Disable | lib/neuroncheck/kernel.rb:456-459 | checks are off |
| Kernel.Engine.Enable | lib/neuroncheck/kernel.rb:472-475 | checks are on |
| Kernel.Engine.DisableDuring | lib/neuroncheck/kernel.rb:447-455 | the block runs with checks off, and checks are on afterwards |
| Kernel.Engine.EnableDuring | lib/neuroncheck/kernel.rb:463-471 | the block runs with checks on, and checks are off afterwards |
| Kernel.CheckParam | lib/neuroncheck/kernel.rb:266-307 | one parameter's check, its loops included, is the parameter's specification |
| Kernel.ScanArguments | lib/neuroncheck/kernel.rb:258-309 | the loop over the parameters gives the first refused argument or error, and binds every parameter's name to its value when none is refused |
| Kernel.FindRefused | lib/neuroncheck/kernel.rb:280-298 | the loop finds the first refused item |
| Kernel.FindHookError | lib/neuroncheck/kernel.rb:176-198 | the hook's checks, its loop included, give `HookError` |
| Kernel.BindToMethod | lib/neuroncheck/kernel.rb:170-173 | the bound declaration names its class and method, so it has a name-only caption, and keeps its matchers and conditions |
| Kernel.FindGroup | lib/neuroncheck/kernel.rb:518 | the first class entry with the key, or none when no entry has it |
| Kernel.FindGroupSameKeys | lib/neuroncheck/kernel.rb:518 | the entry found depends only on the keys |
| Kernel.FindGroupAppend | lib/neuroncheck/kernel.rb:518 | a class added at the end is found only when no earlier entry has its key |
| Kernel.PutMember | lib/neuroncheck/kernel.rb:518-519 | existing classes keep their place; a new one goes at the end |
| Kernel.PutMemberThenLookup | lib/neuroncheck/kernel.rb:518-519 | the member written is read back, and every other class's and name's entry is kept |
| Kernel.ModuleKey | lib/neuroncheck/kernel.rb:510-515 | a named class's key is its name; an unnamed class has no key exactly when unnamed classes are ignored |
| Kernel.ExportMethod | lib/neuroncheck/kernel.rb:506-522 | a method row touches only its own section |
| Kernel.ExportAttributeRows | lib/neuroncheck/kernel.rb:532-535 | attribute rows touch only the attributes section |
| Kernel.ExportedMethodFound | lib/neuroncheck/kernel.rb:506-522 | the method exported last is found under its class and name, in its section, with its meta record |
| Kernel.IgnoredMethodSkipped | lib/neuroncheck/kernel.rb:513-517 | a method of an unnamed class is skipped when unnamed classes are ignored |
| Kernel.MethodKeysNamed | lib/neuroncheck/kernel.rb:517 | the method sections only get classes with keys, and the attributes section is untouched |
| Kernel.ExportMethodKeysNamed | lib/neuroncheck/kernel.rb:517-521 | exporting one more method row keeps both method sections keyed when they were |
| Kernel.AttributeRowsKeyed | lib/neuroncheck/kernel.rb:532-535 | rows under a key keep every class keyed |
| Kernel.AttributeKeysNamed | lib/neuroncheck/kernel.rb:524-536 | the corrected attribute export only gets classes with keys |
| Kernel.AttributeMethodsUnchanged | lib/neuroncheck/kernel.rb:524-536 | the attribute export leaves the method sections alone |
| Kernel.ExportKeysNamed | lib/neuroncheck/kernel.rb:503-539 | every section of the corrected export has keys only |
| Kernel.DeclarationsExport | lib/neuroncheck/kernel.rb:503-539 | without `ignore_unnamed_modules` the corrected export is the export as written; an error exporting the methods is raised as is |
| Kernel.AsWrittenAgreesWithoutIgnoring | lib/neuroncheck/kernel.rb:524-536 | without `ignore_unnamed_modules` the attribute export as written is the corrected one |
| Kernel.UnnamedAttributeUnderNilKey | lib/neuroncheck/kernel.rb:524-536 | as written, an attribute of an unnamed class, with unnamed classes ignored, is exported under a nil key |
| Kernel.UnnamedAttributeIgnored | lib/neuroncheck/kernel.rb:513-517 | corrected, that attribute is left out as the method loop leaves methods out |

## Left out

- Ruby's TracePoint and Binding are not modelled. `OnCall` and `OnReturn` receive the parameter values in parameter order, and `BindingsFit` assumes a rest parameter holds an Array and a keyword rest a Hash.
- `make_cond_block_context` is partly left out. Its local-variable module is the `values` map the condition block is given. The copying of instance variables, and the effects of forwarded calls, are not modelled: a condition block is the sequence of steps the context decides on.
- Module prepending, `super` calls and `method_added` chaining are not modelled. The attribute wrappers are the `readers` and `writers` maps of `CheckedModule`, and the stored attribute value is a parameter.
- `lib/neuroncheck/syntax.rb`'s refinements are not modelled. Neither is the Ruby 2.1 check on the shorthand form (`defined?(NeuronCheckSyntax)`); the shorthand is always available here.
- `NeuronCheck.enable_plugin` is left out: it only `require`s a file.
- Object identity (`equal?`) is value equality in the model.
- Method lookup through inheritance is not modelled. `METHOD_DECLARATIONS[tp.defined_class]` is looked up under the owner the caller names.
- `get_declarations_as_json` is a function of the tables' rows, given as sequences in the tables' enumeration order, which Ruby's Hash keeps and a Dafny map does not.
- Floating-point values, String escaping in `inspect`, and `truncate`'s `separator` option are left out. The engine never passes the separator.
- The keyword API object's `method_self_object` field is left out; matching is given the receiver directly.
- NameError's exact Ruby message is not modelled; only its class is fixed.
- An anonymous class has no name. Its `inspect` comes from the `World`.
- Kernel.AttrCheck: the message is built without a signature. The source passes the declaration, which only gets a signature line if a refused method binding left a method on it before it was used for attributes.
- Declarations.CheckedModule: the declaration that `__neuron_check_attr_defined` registers under every name is one shared object in Ruby. Here each entry holds a copy bound to the last name, which is what every name then sees.
- Utils.Truncate is the corrected `truncate`; the engine's messages use it (see Findings).
- Kernel.Engine.MethodAdded: when the hook refuses a binding, the declaration it registered stays pending, and in Ruby it is one shared object. A later method definition rebinds that object, so the earlier METHOD_DECLARATIONS entry changes with it. Here each table entry is a copy that keeps the binding it was registered with.
- Kernel.Engine.ReadAttribute is the corrected reader wrapper; `ReaderAsWritten` keeps the nil result as written (see Findings).
- Kernel.DeclarationsExport uses the corrected attribute export; `DeclarationsExportAsWritten` keeps the as-written one (see Findings).

## Findings

| source | as written | input that shows it | evidently intended | confidence | as-written member | corrected member |
|---|---|---|---|---|---|---|
| lib/neuroncheck/utils.rb:37 | `truncate` slices `self`, which is the `Utils` module, not the string | any violation message for a value whose inspection is longer than 40 characters, e.g. a 41-character String: `Utils` has no `[]`, so NoMethodError replaces the NeuronCheckError | `str[0, stop]` followed by the omission | high (not executed) | Utils.TruncateAsWritten, Utils.TruncateAsWrittenRaises | Utils.Truncate, Utils.TruncateWithinLimit |
| lib/neuroncheck/kernel.rb:524-536 | the attribute loop of `get_declarations_as_json` has no `if key`, unlike the method loop | an unnamed class (`Class.new`) with an `attr_accessor` declaration, exported with `ignore_unnamed_modules: true`: its attributes land in `attributes` under a nil key | unnamed classes are skipped, as the method loop skips them at line 517 | medium (not executed) | Kernel.ExportAttributesAsWritten, Kernel.UnnamedAttributeUnderNilKey | Kernel.ExportAttributes, Kernel.UnnamedAttributeIgnored, Kernel.ExportKeysNamed |
| lib/neuroncheck/kernel.rb:93-104 | the reader wrapper ends with the `if` around its check, so it returns that `if`'s value | any declared attribute read whose check passes, e.g. `attr_reader :x` declared `val String` holding "a": the wrapper returns nil instead of "a" | the wrapper returns `val` after the check, as the writer wrapper passes `val` on to `super` | high (not executed) | Kernel.ReaderAsWritten, Kernel.ReaderAsWrittenReadsNil | Kernel.Reader, Kernel.Engine.ReadAttribute, Kernel.ReaderAsWrittenDiffers |
