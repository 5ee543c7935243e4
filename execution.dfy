/**
  What the code the macro produces does when it runs: a block whose first
  statement builds the guard keeps it alive for the rest of the block, so the
  guard is dropped, and one observation recorded, when the block is left.
  This ties the tree built by module Expansion to the guard of module Timer.
*/
module Execution {
  import opened Wrappers
  import opened Syntax
  import opened Expansion
  import opened Timer

  /** The observations the guard of `b` adds: one if `b` starts with a guard, none otherwise. */
  function EmittedBy(b: Block, duration: nat): seq<Observation> {
    match GuardOf(b)
    case Some(p) => [Observation(p.metricName, duration, LabelsFor(p.structName, p.functionName))]
    case None => []
  }

  /**
    Runs a function body whose remaining statements behave as `run` describes.
    A leading guard statement is evaluated first and dropped on exit, so its
    observation follows those the body records itself.
  */
  method RunBlock(b: Block, run: BodyRun, clock: Clock, recorder: Recorder) returns (exit: Exit)
    modifies clock, recorder
    ensures exit == run.exit
    ensures clock.now == old(clock.now) + run.duration
    ensures recorder.observations == old(recorder.observations) + run.emitted + EmittedBy(b, run.duration)
  {
    var guard := GuardOf(b);
    if guard.Some? {
      exit := RunGuarded(guard.value.metricName, guard.value.structName, guard.value.functionName, run, clock, recorder);
    } else {
      clock.Advance(run.duration);
      recorder.ReceiveAll(run.emitted);
      exit := run.exit;
    }
  }

  /**
    Calling a free function expanded by `#[time("name")]`: one observation
    named after the literal, tagged only with the function's name, whatever
    way the body exits, after whatever the body records itself.
  */
  method CallTimedFunction(attr: seq<Token>, f: ItemFn, run: BodyRun, clock: Clock, recorder: Recorder)
    returns (exit: Exit)
    requires Expand(attr, FnItem(f)).Ok?
    modifies clock, recorder
    ensures exit == run.exit
    ensures clock.now == old(clock.now) + run.duration
    ensures recorder.observations
            == old(recorder.observations) + run.emitted
               + [Observation(attr[0].value, run.duration, [Label("function", f.sig.ident)])]
  {
    ExpandFreeFunction(attr, f);
    var expanded := Expand(attr, FnItem(f)).value.itemFn;
    exit := RunBlock(expanded.block, run, clock, recorder);
  }

  /**
    Calling the k-th item, a method, of an `impl` block expanded by
    `#[time("name")]`: one observation named after the block's literal and
    tagged with the owner type first and the method's name second.
  */
  method CallTimedMethod(attr: seq<Token>, i: ItemImpl, k: nat, run: BodyRun, clock: Clock, recorder: Recorder)
    returns (exit: Exit)
    requires StartsWithImplToken(ImplBlock(i)) && Expand(attr, ImplBlock(i)).Ok?
    requires k < |i.items| && i.items[k].Method?
    modifies clock, recorder
    ensures exit == run.exit
    ensures clock.now == old(clock.now) + run.duration
    ensures recorder.observations
            == old(recorder.observations) + run.emitted
               + [Observation(attr[0].value, run.duration,
                              LabelsFor(ImplStructName(i.selfTy, None), i.items[k].implMethod.sig.ident))]
  {
    FoldedImplShape(attr[0].value, None, i, k);
    var expanded := Expand(attr, ImplBlock(i)).value.itemImpl;
    exit := RunBlock(expanded.items[k].implMethod.block, run, clock, recorder);
  }
}
