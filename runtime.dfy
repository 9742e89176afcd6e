/** What one compiled step does when the pipeline runs it: the run context it is
    given, the outcome it reports through its callback, and its effects on the
    connection and on the telemetry event emitter. */
module Runtime {
  import opened Script
  import opened Compiler

  /** An engine.io connection, known by the target and options it was opened with. */
  datatype Socket = Socket(target: Value, options: map<string, Value>)

  /** The run context of one virtual user: the connection stored on `open`, the
      `_successCount` field, and every other variable steps and hooks keep in it. */
  datatype Context = Context(socket: Option<Socket>, successCount: Option<int>, vars: map<string, Value>)

  /** The literal `{}` the handshake passes on when the connection reports an error. */
  const EmptyContext := Context(None, None, map[])

  /** An error object, with the two fields the engine reads. */
  datatype Error = Error(message: Value, code: Value)

  /** Events emitted on the shared event emitter. The engine emits `error` with an
      error object (a failed send) or with a message or code (a failed connection). */
  datatype Event =
    | Started
    | Counter(name: string, delta: int)
    | Rate(name: string)
    | ErrorObject(err: Error)
    | ErrorText(detail: Value)

  const MessagesSent := "engine.websocket.messages_sent"
  const SendRate := "engine.websocket.send_rate"

  /** Why a step never invokes its callback. */
  datatype Stall =
    | NoProcessor     // `config.processor[...]` on an absent processor table throws
    | NoHook          // the named hook is not in the processor table
    | HookPending     // the hook never called its completion
    | SendThrew       // `undefined.toString()` or `context.socket.send` without a socket throws
    | NoAck           // the connection never acknowledged the send
    | NotReady        // the connection never said it was ready nor failed

  /** What a step reports: `callback(null, ctx)`, `callback(err, ctx)`, or nothing at all.
      The context of an error is optional because a step built by the engine
      utilities may report an error without one. */
  datatype Outcome = Ok(ctx: Context) | Err(err: Error, errCtx: Option<Context>) | Stalled(why: Stall)

  /** Everything outside the run context that steps and the pipeline touch:
      the acknowledgements the connection will give to the next sends (Some(e) is a
      send error), the payloads handed to `socket.send`, the number of `socket.close()`
      calls, and the events emitted, oldest first. */
  datatype World = World(replies: seq<Option<Error>>, sent: seq<string>, closes: nat, log: seq<Event>)

  /** A step's outcome together with the world after it. */
  datatype Effect = Effect(outcome: Outcome, world: World)

  /** The collaborators the engine calls but does not define: the built-in conversions,
      the template renderer of the engine utilities, the hooks of the processor table
      (None when a hook never calls its completion; Some(c) when it does, with the
      context as the hook left it), and the runtime of loop and think steps built by
      the engine utilities. */
  datatype Env = Env(
    js: Builtins,
    render: (Value, Context) -> Value,
    runHook: (Hook, Context) -> Option<Context>,
    runUtil: (CompiledStep, Context) -> Outcome)

  /** The text a send step transmits for a rendered template: JSON for values whose
      `typeof` is 'object', the string conversion for the other primitives, and
      nothing for undefined, whose `toString` throws. */
  function Payload(js: Builtins, rendered: Value): (r: Option<string>)
    ensures r.None? <==> rendered.Undefined?
    ensures IsObjectType(rendered) ==> r == Some(js.stringify(rendered))
    ensures !IsObjectType(rendered) && !rendered.Undefined? ==> r == Some(js.toStr(rendered))
  {
    if IsObjectType(rendered) then Some(js.stringify(rendered))
    else if rendered.Undefined? then None
    else Some(js.toStr(rendered))
  }

  /** The send closure. It counts the message and its rate before anything else, renders
      and serialises the template, hands the payload to the connection, and reports
      the connection's answer, emitting an `error` event first when that is an error. */
  function ExecSend(env: Env, template: Value, ctx: Context, w: World): (r: Effect)
    // telemetry comes first, whatever happens next; an error event appears iff the step reports an error
    ensures |r.world.log| >= |w.log| + 2
    ensures r.world.log[..|w.log| + 2] == w.log + [Counter(MessagesSent, 1), Rate(SendRate)]
    ensures r.outcome.Err? ==> r.world.log == w.log + [Counter(MessagesSent, 1), Rate(SendRate), ErrorObject(r.outcome.err)]
    ensures !r.outcome.Err? ==> r.world.log == w.log + [Counter(MessagesSent, 1), Rate(SendRate)]
    // the step passes on the context it was given
    ensures r.outcome.Ok? ==> r.outcome.ctx == ctx
    ensures r.outcome.Err? ==> r.outcome.errCtx == Some(ctx)
    // exactly one payload is sent, the serialised rendering of the template, unless serialising threw
    ensures r.outcome != Stalled(SendThrew) <==>
              ctx.socket.Some? && Payload(env.js, env.render(template, ctx)).Some?
    ensures r.outcome != Stalled(SendThrew) ==>
              r.world.sent == w.sent + [Payload(env.js, env.render(template, ctx)).value]
    ensures r.outcome == Stalled(SendThrew) ==> r.world.sent == w.sent
    // the callback runs iff the connection answers; its answer is consumed and decides the outcome
    ensures r.outcome.Ok? || r.outcome.Err? ==> w.replies != [] && r.world.replies == w.replies[1..]
    ensures r.outcome.Ok? ==> w.replies[0].None?
    ensures r.outcome.Err? ==> w.replies[0] == Some(r.outcome.err)
    ensures r.outcome.Stalled? ==> r.world.replies == w.replies
    ensures r.outcome.Stalled? ==> r.outcome.why == SendThrew || (r.outcome.why == NoAck && w.replies == [])
    ensures r.world.closes == w.closes
  {
    var counted := w.(log := w.log + [Counter(MessagesSent, 1), Rate(SendRate)]);
    var payload := Payload(env.js, env.render(template, ctx));
    if payload.None? || ctx.socket.None? then
      Effect(Stalled(SendThrew), counted)
    else
      var sent := counted.(sent := counted.sent + [payload.value]);
      if sent.replies == [] then
        Effect(Stalled(NoAck), sent)
      else
        var answered := sent.(replies := sent.replies[1..]);
        match sent.replies[0]
        case Some(e) => Effect(Err(e, Some(ctx)), answered.(log := answered.log + [ErrorObject(e)]))
        case None => Effect(Ok(ctx), answered)
  }

  /** The function closure: it looks its hook up when it runs, and forwards the context
      once the hook calls its completion; without a hook its callback is never invoked. */
  function ExecFunction(env: Env, config: Config, name: Value, ctx: Context): (r: Outcome)
    ensures !r.Err?
    ensures config.processor.None? <==> r == Stalled(NoProcessor)
    // the hook is the processor table's entry for the string form of the name
    ensures r == Stalled(NoHook) <==>
              config.processor.Some? && env.js.toStr(name) !in config.processor.value
    ensures r.Ok? <==>
              config.processor.Some? && env.js.toStr(name) in config.processor.value &&
              env.runHook(config.processor.value[env.js.toStr(name)], ctx).Some?
    ensures r.Ok? ==> r.ctx == env.runHook(config.processor.value[env.js.toStr(name)], ctx).value
  {
    if config.processor.None? then Stalled(NoProcessor)
    else
      match LookupHook(env.js, config.processor.value, name)
      case None => Stalled(NoHook)
      case Some(hook) =>
        match env.runHook(hook, ctx)
        case None => Stalled(HookPending)
        case Some(after) => Ok(after)
  }

  /** Run one compiled step on a context. */
  function ExecStep(env: Env, config: Config, step: CompiledStep, ctx: Context, w: World): (r: Effect)
    ensures r.world.closes == w.closes
    ensures w.log <= r.world.log
    ensures !step.CSend? ==> r.world == w
    ensures step.CSend? ==> r == ExecSend(env, step.template, ctx, w)
    ensures step.CFunc? ==> r == Effect(ExecFunction(env, config, step.name, ctx), w)
    ensures step.CThink? || step.CLoop? ==> r == Effect(env.runUtil(step, ctx), w)
  {
    match step
    case CSend(template) => ExecSend(env, template, ctx, w)
    case CFunc(name) => Effect(ExecFunction(env, config, name, ctx), w)
    case CThink(_, _) => Effect(env.runUtil(step, ctx), w)
    case CLoop(_, _, _) => Effect(env.runUtil(step, ctx), w)
  }
}
