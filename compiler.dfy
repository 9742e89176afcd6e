/** The step compiler: `step` turns one step specification into a compiled step by a
    fixed priority (loop, think, function, send), recursing into loop bodies, and
    `createScenario` compiles a whole flow, one task per entry, in order. */
module Compiler {
  import opened Script

  /** The `loop` field of a step: an array of steps (always truthy), or absent or falsy. */
  datatype LoopField = NoLoop | Loop(body: seq<StepSpec>)

  /** One entry of a flow, as the script gives it: every field is optional;
      `func` is the script's `function` field. */
  datatype StepSpec = StepSpec(
    loop: LoopField,
    think: Value,
    func: Value,
    send: Value,
    count: Value,
    loopValue: Value,
    over: Value,
    whileTrue: Value)

  /** The options handed to the loop constructor of the engine utilities. */
  datatype LoopOptions = LoopOptions(loopValue: Value, overValues: Value, whileTrue: Option<Hook>)

  /** A compiled step. Loops and think steps are built by the engine utilities, which
      receive exactly these arguments; function and send steps are closures over the
      named hook and the message template. */
  datatype CompiledStep =
    | CLoop(count: Value, body: seq<CompiledStep>, opts: LoopOptions)
    | CThink(spec: StepSpec, defaults: Value)
    | CFunc(name: Value)
    | CSend(template: Value)

  /** The `whileTrue` hook of a loop: looked up only when the configuration has a processor table. */
  function WhileHook(js: Builtins, config: Config, name: Value): Option<Hook>
  {
    if config.processor.Some? then LookupHook(js, config.processor.value, name) else None
  }

  /** `step(requestSpec)`. */
  function Step(js: Builtins, config: Config, spec: StepSpec): (r: CompiledStep)
    decreases spec
    // dispatch priority: loop, then think, then function, then send
    ensures r.CLoop? <==> spec.loop.Loop?
    ensures r.CThink? <==> spec.loop.NoLoop? && Truthy(spec.think)
    ensures r.CFunc? <==> spec.loop.NoLoop? && !Truthy(spec.think) && Truthy(spec.func)
    ensures r.CSend? <==> spec.loop.NoLoop? && !Truthy(spec.think) && !Truthy(spec.func)
    // one compiled body step per body entry
    ensures r.CLoop? ==> |r.body| == |spec.loop.body|
    // loop defaults: an absent or falsy count becomes -1, an absent loop variable `$loopCount`
    ensures r.CLoop? ==> Truthy(r.count) && Truthy(r.opts.loopValue)
    ensures r.CLoop? && !Truthy(spec.count) ==> r.count == Num(-1)
    ensures r.CLoop? && Truthy(spec.count) ==> r.count == spec.count
    ensures r.CLoop? && !Truthy(spec.loopValue) ==> r.opts.loopValue == Str("$loopCount")
    ensures r.CLoop? && Truthy(spec.loopValue) ==> r.opts.loopValue == spec.loopValue
    ensures r.CLoop? ==> r.opts.overValues == spec.over
    // the `whileTrue` hook: none without a processor table, else the table's entry for the name, if any
    ensures r.CLoop? && config.processor.None? ==> r.opts.whileTrue.None?
    ensures r.CLoop? && config.processor.Some? ==>
              (r.opts.whileTrue.Some? <==> js.toStr(spec.whileTrue) in config.processor.value)
    ensures r.CLoop? && r.opts.whileTrue.Some? ==>
              config.processor.Some? && r.opts.whileTrue.value == config.processor.value[js.toStr(spec.whileTrue)]
    // the leaves keep what their closures capture
    ensures r.CThink? ==> r == CThink(spec, ThinkDefaults(config))
    ensures r.CFunc? ==> r.name == spec.func
    ensures r.CSend? ==> r.template == spec.send
  {
    if spec.loop.Loop? then
      var body := spec.loop.body;
      var steps := seq(|body|, i requires 0 <= i < |body| =>
                         assert body[i] in body;
                         Step(js, config, body[i]));
      CLoop(Or(spec.count, Num(-1)), steps,
            LoopOptions(Or(spec.loopValue, Str("$loopCount")), spec.over,
                        WhileHook(js, config, spec.whileTrue)))
    else if Truthy(spec.think) then
      CThink(spec, ThinkDefaults(config))
    else if Truthy(spec.func) then
      CFunc(spec.func)
    else
      CSend(spec.send)
  }

  /** Each loop body entry compiles through `step`, in order. */
  lemma LoopBodyCompiled(js: Builtins, config: Config, spec: StepSpec, i: nat)
    requires spec.loop.Loop? && i < |spec.loop.body|
    ensures Step(js, config, spec).CLoop?
    ensures |Step(js, config, spec).body| == |spec.loop.body|
    ensures Step(js, config, spec).body[i] == Step(js, config, spec.loop.body[i])
  {
  }

  /** The entry found by following a path of loop-body indices from `spec`, if any. */
  function SpecAt(spec: StepSpec, path: seq<nat>): Option<StepSpec>
    decreases |path|
  {
    if path == [] then Some(spec)
    else if spec.loop.Loop? && path[0] < |spec.loop.body| then SpecAt(spec.loop.body[path[0]], path[1..])
    else None
  }

  /** The compiled step found by following a path of loop-body indices from `c`, if any. */
  function CompiledAt(c: CompiledStep, path: seq<nat>): Option<CompiledStep>
    decreases |path|
  {
    if path == [] then Some(c)
    else if c.CLoop? && path[0] < |c.body| then CompiledAt(c.body[path[0]], path[1..])
    else None
  }

  /** Nested loops nest: every position reachable in the specification is reachable in
      the compiled step and holds the compilation of the entry there, and no other
      position is reachable. */
  lemma {:induction false} StepPreservesNesting(js: Builtins, config: Config, spec: StepSpec, path: seq<nat>)
    ensures SpecAt(spec, path).Some? <==> CompiledAt(Step(js, config, spec), path).Some?
    ensures SpecAt(spec, path).Some? ==>
              CompiledAt(Step(js, config, spec), path).value == Step(js, config, SpecAt(spec, path).value)
    decreases |path|
  {
    if path != [] && spec.loop.Loop? && path[0] < |spec.loop.body| {
      LoopBodyCompiled(js, config, spec, path[0]);
      StepPreservesNesting(js, config, spec.loop.body[path[0]], path[1..]);
    }
  }

  /** One flow entry at the top level of a scenario: a truthy `think` goes straight to
      the think constructor, before any other field is looked at; the rest go through `step`. */
  function TopLevel(js: Builtins, config: Config, spec: StepSpec): CompiledStep
  {
    if Truthy(spec.think) then CThink(spec, ThinkDefaults(config)) else Step(js, config, spec)
  }

  /** The task list of `createScenario`: one compiled task per flow entry, in the same order. */
  function CreateScenario(js: Builtins, config: Config, flow: seq<StepSpec>): (tasks: seq<CompiledStep>)
    ensures |tasks| == |flow|
    ensures forall i :: 0 <= i < |flow| && Truthy(flow[i].think) ==>
              tasks[i] == CThink(flow[i], ThinkDefaults(config))
    ensures forall i :: 0 <= i < |flow| && !Truthy(flow[i].think) ==>
              tasks[i] == Step(js, config, flow[i])
  {
    if flow == [] then [] else [TopLevel(js, config, flow[0])] + CreateScenario(js, config, flow[1..])
  }

  /** Compiling a flow commutes with concatenating flows. */
  lemma CreateScenarioAppend(js: Builtins, config: Config, a: seq<StepSpec>, b: seq<StepSpec>)
    ensures CreateScenario(js, config, a + b) == CreateScenario(js, config, a) + CreateScenario(js, config, b)
  {
  }

  /** The same entry with a truthy `think` and a loop compiles to a think step at the
      top level of a flow but to a loop inside a loop body. */
  lemma ThinkBeatsLoopOnlyAtTopLevel(js: Builtins, config: Config, spec: StepSpec, outer: StepSpec)
    requires spec.loop.Loop? && Truthy(spec.think)
    requires outer.loop == Loop([spec])
    ensures CreateScenario(js, config, [spec])[0].CThink?
    ensures Step(js, config, outer).body[0].CLoop?
  {
  }
}
