# engine.io scenario engine: compiler and execution pipeline

This project models the engine.io engine of a load-testing tool in Dafny. A
scenario is a flow of steps run by one virtual user over one engine.io
connection. The model covers two parts.

- **The step compiler** (`Compiler`). `step` compiles one step by a fixed
  priority: a loop, then a think, then a function hook, and a send for
  everything else. It compiles loop bodies recursively and gives loops their
  defaults. `createScenario` compiles a flow, one task per entry, in order.
  At the top level of a flow, a truthy `think` is tested before anything else.
- **The execution pipeline** (`Runtime`, `Pipeline`). The compiled `scenario`
  sets `_successCount` to 0. It runs the handshake step `zero`, then the
  tasks, as an `async.waterfall`: strict order, the context threaded from
  step to step, and a stop at the first error. The final callback closes the
  connection iff the context it receives holds one.

The JavaScript values the script carries are a `Value` datatype with the
language's truthiness rules (`Script`). The connection, the telemetry event
emitter and the helpers the engine calls without defining are treated as
follows.

- The connection's handshake is a scripted sequence of `open`, `message` and
  `error` events. Its answers to sends are a scripted sequence of
  acknowledgements.
- The event emitter is an append-only log of events.
- `JSON.stringify`, string conversion, template rendering, the processor
  hooks and the runtime of think and loop steps are collaborator functions
  passed in (`Builtins`, `Env`).

A step may never call its callback: its hook is missing or never completes,
it throws synchronously, or the connection never answers. Such a step is
`Stalled`. Then the waterfall's final callback never runs and nothing is
closed.

The connection and the event emitter, which the source changes in place, are
the state of the class `Pipeline.Runner`: the sent payloads, the close count,
the pending acknowledgements and the event log. The class's methods are
proved equal to the pure functions `ExecSend`, `ExecStep`, `Handshake` and
`RunScenario`, and the lemmas are stated about those functions. The run
context is a value handed from step to step (see "## Left out").

Three behaviours of the code are easy to miss:

- At the top level of a flow, `think` is checked before `loop`
  (core/lib/engine_engineio.js:23). Inside a loop body the order is
  loop first.
- There is no compile-time error for an unrecognised step. Every entry that
  is not a loop, a think or a function compiles to a send step.
- Cleanup is not total. A step that never calls back leaves the connection
  open. A connection error during the handshake passes on `{}`, so the
  connection it opened is never closed (`HandshakeFaultLeavesSocketOpen`).

## Model

| member | source | states |
|---|---|---|
| Script.Or | core/lib/engine_engineio.js:41-44 | `a \|\| b` yields `a` when truthy and `b` otherwise; the result is truthy iff either operand is |
| Script.ThinkDefaults | core/lib/engine_engineio.js:24 | the think defaults are `config.defaults.think`, or `{}` when that path is undefined; never undefined |
| Compiler.Step | core/lib/engine_engineio.js:32-89 | dispatch priority as four if-and-only-ifs: a loop iff `loop` is an array; a think iff no loop and `think` is truthy; a function iff neither and `function` is truthy; a send otherwise. A loop has one body step per entry, a truthy count (`-1` when the count is absent or falsy, else the count), loop variable `$loopCount` unless one is given, `over` passed through and a `whileTrue` hook that is absent without a processor table and otherwise the table's entry for the string form of the name, if any (lines 46-47). The leaves keep the spec, hook name or template |
| Compiler.LoopBodyCompiled | core/lib/engine_engineio.js:36-38 | body entry `i` of a compiled loop is `step` applied to body entry `i` |
| Compiler.StepPreservesNesting | core/lib/engine_engineio.js:35-38 | for every path of loop-body indices, the path exists in the spec iff it exists in the compiled step, and it leads to the compilation of the entry found there |
| Compiler.CreateScenario | core/lib/engine_engineio.js:20-30 | exactly one task per flow entry, in order: task `i` is a think step with the think defaults when entry `i` has a truthy `think`, whatever else it holds, and `step` of entry `i` otherwise (lines 22-27) |
| Compiler.CreateScenarioAppend | core/lib/engine_engineio.js:22-27 | compiling `a + b` gives the tasks of `a` followed by the tasks of `b` |
| Compiler.ThinkBeatsLoopOnlyAtTopLevel | core/lib/engine_engineio.js:23-37 | an entry with both a loop and a truthy `think` is a think step at the top level of a flow and a loop inside a loop body |
| Runtime.Payload | core/lib/engine_engineio.js:70-75 | the payload is JSON for a value whose `typeof` is 'object' (null included) and the string form for other primitives; there is none for undefined, whose `toString` throws |
| Runtime.ExecSend | core/lib/engine_engineio.js:66-86 | the counter then the rate event are logged first on every path. At most one payload is sent: the serialised template, unless serialising or the missing socket throws. The first acknowledgement is consumed and decides the outcome: an error logs an `error` event carrying it and reports `(err, context)`, success reports `(null, context)` with no `error` event, no answer stalls. Nothing is closed |
| Runtime.ExecFunction | core/lib/engine_engineio.js:55-63 | never reports an error; stalls without a processor table or when the string form of the name is not one of its keys (line 57); reports the context as the hook left it iff the hook exists and completes |
| Runtime.ExecStep | core/lib/engine_engineio.js:40-86 | a send step behaves as `ExecSend`, a function step reports `ExecFunction`'s outcome, and a think or loop step reports the outcome of the engine utilities' runtime; steps other than sends leave the world unchanged; no step closes the connection or removes logged events |
| Pipeline.ConnectOptions | core/lib/engine_engineio.js:96-98 | the options' keys are those of `tls` and `engineio`; `engineio` wins on a clash; other keys keep their `tls` value |
| Pipeline.Handshake | core/lib/engine_engineio.js:95-119 | a ready handshake passes on the given context, with the connection stored iff opened, and changes nothing else. A failed one passes on `{}` and logs exactly the error's message or code. A stall is `NotReady` and changes nothing. Sends, acknowledgements and closes are never touched |
| Pipeline.HandshakeReady | core/lib/engine_engineio.js:104-112 | after `open` events and non-ready messages, a ready message completes the handshake with the context, holding the connection iff an `open` came first |
| Pipeline.QuietStalls | core/lib/engine_engineio.js:104-118 | with only `open` events and non-ready messages, the handshake never calls back and changes nothing; with HandshakeReady and HandshakeFault this covers every event sequence |
| Pipeline.HandshakeFault | core/lib/engine_engineio.js:114-118 | the first error before readiness fails the handshake with `{}`, whether or not `open` came first |
| Pipeline.Waterfall | core/lib/engine_engineio.js:123-129 | at most one step per task runs, and at least one once the handshake succeeded. An outcome that is not a success runs nothing further. A run that stops early ends in an error or a stall. Steps never close the connection and only append to the log |
| Pipeline.WaterfallAppend | core/lib/engine_engineio.js:128-129 | running `a + b` is running `a` and then `b` from the outcome and world `a` ended with; the step counts add up |
| Pipeline.WaterfallStopsAtFailure | core/lib/engine_engineio.js:128-129 | once the run ends in an error or a stall, appending further tasks changes nothing |
| Pipeline.SendsInOrder | core/lib/engine_engineio.js:123-129 | in a loop-free flow whose run ends without an error, every task runs, in flow order, and task `i` is handed the context the tasks before it ended with. A send task adds exactly its own payload, rendered against that context, with its counter and rate events, and consumes one acknowledgement; a function or think task sends and logs nothing |
| Pipeline.FirstFailureEndsRun | core/lib/engine_engineio.js:128-129 | when the tasks before `k` succeed and task `k` does not, the run ends with task `k`'s outcome and world after exactly `k + 1` tasks |
| Pipeline.SendErrorAt | core/lib/engine_engineio.js:79-85 | in a flow of sends, the first refused send ends the waterfall with that error and the unchanged context after exactly `k + 1` tasks |
| Pipeline.Finish | core/lib/engine_engineio.js:130-140 | the final callback gets `(null, ctx)` or `(err, ctx)`. It closes the connection once iff the context exists and holds one, never otherwise, and never runs after a stall |
| Pipeline.RunScenario | core/lib/engine_engineio.js:94-141 | `started` is the first event of a run, and the connection is opened on `config.target` with the merged options (line 102); a run that reaches the final callback closes the connection exactly once iff that callback's context holds one; a stalled run closes nothing |
| Pipeline.ReadyStartsTasks | core/lib/engine_engineio.js:104-121 | after readiness the tasks run on the initial context with `_successCount` 0, holding the connection iff `open` came before the ready message |
| Pipeline.HandshakeFaultLeavesSocketOpen | core/lib/engine_engineio.js:114-118 | a connection error before readiness ends the run with the error and `{}`. No task runs and nothing is closed, even after `open` |
| Pipeline.QuietHandshakeHangs | core/lib/engine_engineio.js:104-118 | a handshake with no ready message and no error hangs the run: no task runs, the final callback never fires and nothing is closed, even after `open` |
| Pipeline.StepErrorClosesOnce | core/lib/engine_engineio.js:128-140 | a send error after an opened and ready handshake reaches the final callback with that error and a context holding the connection, which is closed exactly once |
| Pipeline.Runner.constructor | core/lib/engine_engineio.js:20-30 | the runner's tasks are the compiled flow; nothing has been sent, closed or logged |
| Pipeline.Runner.Send | core/lib/engine_engineio.js:66-86 | the new outcome and state are those `ExecSend` gives for the old state |
| Pipeline.Runner.RunStep | core/lib/engine_engineio.js:55-86 | the new outcome and state are those `ExecStep` gives for the old state |
| Pipeline.Runner.Zero | core/lib/engine_engineio.js:95-119 | after logging `started`, the event loop's outcome and state are those `Handshake` gives |
| Pipeline.Runner.Scenario | core/lib/engine_engineio.js:94-141 | the loop over the tasks and the cleanup give the result and state `RunScenario` gives for the old state |

## Left out

- The engine.io-client connection and its transport, framing and reconnection are network I/O. The handshake events and the send acknowledgements are scripted inputs.
- Messages are given already decoded. A message `JSON.parse` cannot decode, or one that decodes to `null`, throws in the source; the model does not cover that.
- `engine_util` is not part of this model. `createThink`, `createLoopWithCount` and `template` are collaborators. The runtime of think and loop steps (iteration, `over`, `whileTrue`, timing) is an abstract outcome that leaves the connection and the event log unchanged. Sends inside a loop body therefore do not appear in the model's sent payloads or log.
- Hooks receive the event emitter and the context, including its connection. The model treats a hook as a function from context to context. Events it emits, and sends or closes it does on the connection, are not modelled.
- Re-entrant callbacks are not modelled: a second ready message, or an error event after the handshake, would call the waterfall's callback again. The model stops at the first event that completes or fails the handshake.
- Exceptions thrown synchronously inside a step are modelled as a step that never calls back. What the process does with the uncaught exception is not modelled.
- The run context is a value handed from step to step, not one shared object. The source writes `socket` and `_successCount` into `initialContext` in place, and hooks change that same object. Aliasing of that object, for instance a hook or a late `open` event changing it after it was passed on, is not modelled.
- `Pipeline.SendsInOrder` is stated for flows without loop steps, because sends made inside a loop body are not modelled.
- `_.extend(tls, engineioOps)` also writes the merged options into `config.tls` (an aliasing side effect). Only the merged result is modelled.
- A truthy `loop` field that is not an array, and `tls` or `engineio` sections that are not objects, are not modelled.
- Numbers are integers, so NaN and fractions are not modelled. Send errors are truthy error objects.
- Processor lookups see only the table's own keys. Inherited properties such as `constructor` are not modelled.
- `debug` logging has no effect on behaviour and is omitted. Concurrency between virtual users, and the timing of think steps, are not modelled.
