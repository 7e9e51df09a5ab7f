/**
 * The context a precondition or postcondition block runs in: its `assert`,
 * and what happens to a call of a name the context does not define (it is
 * forwarded to the checked object, refused, or left to Ruby's NameError).
 *
 * The block itself is user code.  It is modelled as the sequence of the
 * steps it takes that the context decides on; a forwarded call has no
 * effect the model sees.
 */
module CondBlocks {
  import opened Errors
  import opened Text
  import opened Values
  import Utils

  /** `CondBlockContext.new(block_name, method_self, allow_instance_method)`; its fields are set once. */
  datatype CondBlockContext = CondBlockContext(blockName: string, methodSelf: Value, allowInstanceMethod: bool)

  /**
   * How a step leaves the block: it goes on, it throws the violation
   * message to the checker (which raises it as a NeuronCheckError), or it
   * raises an error of its own.
   */
  datatype CondOutcome = Continue | Thrown(message: string) | Raised(error: Error)

  /**
   * A step of a condition block: `assert { ... }` (with or without a block,
   * the value the block yields and the location of the call), or a call of
   * a name the context does not define.
   */
  datatype CondStep = AssertStep(block: Option<Value>, at: string) | CallStep(name: string)

  /** The message an assertion that failed at `at` throws. */
  function AssertionFailedMessage(blockName: string, at: string): string
  {
    var locs := Utils.BacktraceLocationsToCaptions([at]);
    blockName + " assertion failed\n"
    + "  asserted at: " + Join(locs, "\n" + Spaces(15)) + "\n"
    + "\n"
  }

  /** `assert(*dummy, &block)` */
  function Assert(ctx: CondBlockContext, block: Option<Value>, at: string): (o: CondOutcome)
    ensures block.None? ==> o == Raised(DeclarationError("no block given for `assert' in " + ctx.blockName))
    ensures block.Some? && Truthy(block.value) ==> o == Continue
    ensures block.Some? && !Truthy(block.value) ==> o == Thrown(AssertionFailedMessage(ctx.blockName, at))
  {
    match block
    case None => Raised(DeclarationError("no block given for `assert' in " + ctx.blockName))
    case Some(v) => if Truthy(v) then Continue else Thrown(AssertionFailedMessage(ctx.blockName, at))
  }

  /** The failed-assertion message names the block and the location, on a line of its own. */
  lemma AssertionFailedLayout(blockName: string, at: string)
    ensures AssertionFailedMessage(blockName, at)
         == blockName + " assertion failed\n" + "  asserted at: " + at + "\n" + "\n"
  {
    assert Utils.BacktraceLocationsToCaptions([at]) == [at];
    JoinSingle(at, "\n" + Spaces(15));
  }

  /** What `method_missing` does with a call of `name`. */
  datatype CallDecision = Forward(receiver: Value, name: string) | Refuse(error: Error)

  /**
   * `method_missing(name, *args, &block)`: a name the checked object
   * responds to (private methods included) is forwarded when instance
   * methods are allowed and refused otherwise; any other name goes to
   * Ruby's own `method_missing`, which raises NameError.
   */
  function MethodMissing(w: World, ctx: CondBlockContext, name: string): (d: CallDecision)
    ensures d.Forward? <==> w.respondTo(ctx.methodSelf, name, true) && ctx.allowInstanceMethod
    ensures d.Forward? ==> d == Forward(ctx.methodSelf, name)
    ensures w.respondTo(ctx.methodSelf, name, true) && !ctx.allowInstanceMethod ==>
      d == Refuse(DeclarationError("instance method `" + name + "' cannot be called in " + ctx.blockName + ", it is forbidden"))
    ensures !w.respondTo(ctx.methodSelf, name, true) ==> d.Refuse? && d.error.RubyError? && d.error.className == "NameError"
  {
    if w.respondTo(ctx.methodSelf, name, true) then
      if ctx.allowInstanceMethod then Forward(ctx.methodSelf, name)
      else Refuse(DeclarationError("instance method `" + name + "' cannot be called in " + ctx.blockName + ", it is forbidden"))
    else
      Refuse(RubyError("NameError", "undefined local variable or method `" + name + "'"))
  }

  /** How one step leaves the block. */
  function StepOutcome(w: World, ctx: CondBlockContext, step: CondStep): CondOutcome
  {
    match step
    case AssertStep(block, at) => Assert(ctx, block, at)
    case CallStep(name) =>
      var d := MethodMissing(w, ctx, name);
      if d.Forward? then Continue else Raised(d.error)
  }

  /** Running the block: the steps in order, until the first one that does not go on. */
  function RunCond(w: World, ctx: CondBlockContext, steps: seq<CondStep>): (r: CondOutcome)
    ensures |steps| > 0 && !StepOutcome(w, ctx, steps[0]).Continue? ==> r == StepOutcome(w, ctx, steps[0])
    ensures !r.Continue? ==> exists i :: 0 <= i < |steps| && r == StepOutcome(w, ctx, steps[i])
    decreases |steps|
  {
    if |steps| == 0 then Continue
    else
      var o := StepOutcome(w, ctx, steps[0]);
      if o.Continue? then RunCond(w, ctx, steps[1..]) else o
  }

  /**
   * A block completes exactly when every step goes on; otherwise it ends
   * as its first step that does not.
   */
  lemma {:induction false} RunCondFirstFailure(w: World, ctx: CondBlockContext, steps: seq<CondStep>)
    ensures RunCond(w, ctx, steps).Continue? <==> forall i :: 0 <= i < |steps| ==> StepOutcome(w, ctx, steps[i]).Continue?
    ensures !RunCond(w, ctx, steps).Continue? ==>
      exists k :: 0 <= k < |steps| && RunCond(w, ctx, steps) == StepOutcome(w, ctx, steps[k])
        && forall i :: 0 <= i < k ==> StepOutcome(w, ctx, steps[i]).Continue?
  {
    if |steps| == 0 {
      return;
    }
    var tail := steps[1..];
    RunCondFirstFailure(w, ctx, tail);
    if StepOutcome(w, ctx, steps[0]).Continue? {
      assert forall i :: 0 <= i < |tail| ==> tail[i] == steps[i + 1];
      if !RunCond(w, ctx, tail).Continue? {
        var k :| 0 <= k < |tail| && RunCond(w, ctx, tail) == StepOutcome(w, ctx, tail[k])
          && forall i :: 0 <= i < k ==> StepOutcome(w, ctx, tail[i]).Continue?;
        assert forall i :: 0 <= i < k + 1 ==> StepOutcome(w, ctx, steps[i]).Continue? by {
          forall i | 0 <= i < k + 1
            ensures StepOutcome(w, ctx, steps[i]).Continue?
          {
            if i > 0 {
              assert steps[i] == tail[i - 1];
            }
          }
        }
        assert RunCond(w, ctx, steps) == StepOutcome(w, ctx, steps[k + 1]);
      }
    } else {
      assert RunCond(w, ctx, steps) == StepOutcome(w, ctx, steps[0]);
    }
  }
}
