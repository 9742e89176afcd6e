/** The execution pipeline of a compiled scenario: the handshake step `zero`, the
    waterfall that runs `[zero] ++ tasks` strictly in order and stops at the first
    error, and the final callback that closes the connection the context holds. */
module Pipeline {
  import opened Script
  import opened Compiler
  import opened Runtime

  /** What the connection reports during the handshake, in order of arrival. Messages
      are given already decoded, as the fields of the JSON object they carry. */
  datatype SocketEvent = Open | Message(fields: map<string, Value>) | Fault(err: Error)

  /** `JSON.parse(m).type === 'ready'`. */
  predicate IsReady(fields: map<string, Value>)
  {
    "type" in fields && fields["type"] == Str("ready")
  }

  /** The events that neither complete nor fail the handshake. */
  predicate Quiet(events: seq<SocketEvent>)
  {
    forall i :: 0 <= i < |events| ==> events[i].Open? || (events[i].Message? && !IsReady(events[i].fields))
  }

  /** The connection options: the `tls` section extended by the `engineio` section. */
  function ConnectOptions(config: Config): (r: map<string, Value>)
    ensures var tls := if config.tls.Some? then config.tls.value else map[];
            var eio := if config.engineio.Some? then config.engineio.value else map[];
            (forall k :: k in r <==> k in tls || k in eio) &&
            (forall k :: k in eio ==> r[k] == eio[k]) &&
            (forall k :: k in tls && k !in eio ==> r[k] == tls[k])
  {
    var tls := if config.tls.Some? then config.tls.value else map[];
    var eio := if config.engineio.Some? then config.engineio.value else map[];
    tls + eio
  }

  /** The connection `zero` opens. */
  function OpenSocket(config: Config): Socket
  {
    Socket(config.target, ConnectOptions(config))
  }

  /** The handshake after `started` is emitted and the connection opened: `open` stores
      the connection on the context, a ready message passes the context on, other
      messages are ignored, and the first error reports its message (or code) and
      passes on an empty context. */
  function Handshake(events: seq<SocketEvent>, ctx: Context, sock: Socket, w: World): (r: Effect)
    decreases |events|
    ensures r.world.replies == w.replies && r.world.sent == w.sent && r.world.closes == w.closes
    ensures w.log <= r.world.log
    ensures r.outcome.Ok? ==> r.world == w
    ensures r.outcome.Ok? ==> r.outcome.ctx == ctx || r.outcome.ctx == ctx.(socket := Some(sock))
    ensures r.outcome.Err? ==> r.outcome.errCtx == Some(EmptyContext)
    ensures r.outcome.Err? ==> r.world.log == w.log + [ErrorText(Or(r.outcome.err.message, r.outcome.err.code))]
    ensures r.outcome.Stalled? ==> r.outcome.why == NotReady && r.world == w
  {
    if events == [] then Effect(Stalled(NotReady), w)
    else
      match events[0]
      case Open => Handshake(events[1..], ctx.(socket := Some(sock)), sock, w)
      case Message(m) => if IsReady(m) then Effect(Ok(ctx), w) else Handshake(events[1..], ctx, sock, w)
      case Fault(e) => Effect(Err(e, Some(EmptyContext)), w.(log := w.log + [ErrorText(Or(e.message, e.code))]))
  }

  /** A ready message completes the handshake with the context it was given, holding the
      connection iff `open` came first; earlier messages that are not ready are ignored. */
  lemma {:induction false} HandshakeReady(pre: seq<SocketEvent>, m: map<string, Value>, rest: seq<SocketEvent>,
                                         ctx: Context, sock: Socket, w: World)
    requires Quiet(pre) && IsReady(m)
    ensures Handshake(pre + [Message(m)] + rest, ctx, sock, w) ==
            Effect(Ok(if Open in pre then ctx.(socket := Some(sock)) else ctx), w)
  {
    if pre != [] {
      assert (pre + [Message(m)] + rest)[1..] == pre[1..] + [Message(m)] + rest;
      assert Quiet(pre[1..]) by {
        forall i | 0 <= i < |pre[1..]| ensures pre[1..][i].Open? || (pre[1..][i].Message? && !IsReady(pre[1..][i].fields)) {
          assert pre[1..][i] == pre[i + 1];
        }
      }
      assert Open in pre <==> pre[0] == Open || Open in pre[1..] by {
        assert pre == [pre[0]] + pre[1..];
      }
      HandshakeReady(pre[1..], m, rest, if pre[0].Open? then ctx.(socket := Some(sock)) else ctx, sock, w);
    }
  }

  /** The first error before readiness fails the handshake with an empty context, even
      when the connection was already opened. */
  lemma {:induction false} HandshakeFault(pre: seq<SocketEvent>, e: Error, rest: seq<SocketEvent>,
                                         ctx: Context, sock: Socket, w: World)
    requires Quiet(pre)
    ensures Handshake(pre + [Fault(e)] + rest, ctx, sock, w) ==
            Effect(Err(e, Some(EmptyContext)), w.(log := w.log + [ErrorText(Or(e.message, e.code))]))
  {
    if pre != [] {
      assert (pre + [Fault(e)] + rest)[1..] == pre[1..] + [Fault(e)] + rest;
      assert Quiet(pre[1..]) by {
        forall i | 0 <= i < |pre[1..]| ensures pre[1..][i].Open? || (pre[1..][i].Message? && !IsReady(pre[1..][i].fields)) {
          assert pre[1..][i] == pre[i + 1];
        }
      }
      HandshakeFault(pre[1..], e, rest, if pre[0].Open? then ctx.(socket := Some(sock)) else ctx, sock, w);
    }
  }

  /** Without a ready message or an error, the handshake never completes: `zero` never
      calls back, whatever `open` events and other messages arrive. */
  lemma {:induction false} QuietStalls(events: seq<SocketEvent>, ctx: Context, sock: Socket, w: World)
    requires Quiet(events)
    ensures Handshake(events, ctx, sock, w) == Effect(Stalled(NotReady), w)
    decreases |events|
  {
    if events != [] {
      assert Quiet(events[1..]) by {
        forall i | 0 <= i < |events[1..]|
          ensures events[1..][i].Open? || (events[1..][i].Message? && !IsReady(events[1..][i].fields))
        {
          assert events[1..][i] == events[i + 1];
        }
      }
      QuietStalls(events[1..], if events[0].Open? then ctx.(socket := Some(sock)) else ctx, sock, w);
    }
  }

  /** Where the waterfall stops: the outcome that reached the final callback, how many
      tasks after `zero` began, and the world afterwards. */
  datatype Run = Run(final: Outcome, ran: nat, world: World)

  /** `async.waterfall` over the tasks, given the outcome of the step before them: each
      task gets the context the previous one passed on, and an error (or a step that
      never calls back) ends the run there. */
  function Waterfall(env: Env, config: Config, first: Outcome, tasks: seq<CompiledStep>, w: World): (r: Run)
    decreases |tasks|
    ensures r.ran <= |tasks|
    ensures !first.Ok? ==> r == Run(first, 0, w)
    ensures first.Ok? && tasks != [] ==> r.ran >= 1
    ensures r.ran < |tasks| ==> !r.final.Ok?
    ensures r.world.closes == w.closes
    ensures w.log <= r.world.log
  {
    if !first.Ok? || tasks == [] then Run(first, 0, w)
    else
      var e := ExecStep(env, config, tasks[0], first.ctx, w);
      var rest := Waterfall(env, config, e.outcome, tasks[1..], e.world);
      Run(rest.final, rest.ran + 1, rest.world)
  }

  /** Running `a + b` is running `a`, then running `b` from where `a` stopped. */
  lemma {:induction false} WaterfallAppend(env: Env, config: Config, first: Outcome,
                                          a: seq<CompiledStep>, b: seq<CompiledStep>, w: World)
    ensures var ra := Waterfall(env, config, first, a, w);
            var rb := Waterfall(env, config, ra.final, b, ra.world);
            Waterfall(env, config, first, a + b, w) == Run(rb.final, ra.ran + rb.ran, rb.world)
    decreases |a|
  {
    if first.Ok? && a != [] {
      assert (a + b)[0] == a[0];
      assert (a + b)[1..] == a[1..] + b;
      var e := ExecStep(env, config, a[0], first.ctx, w);
      WaterfallAppend(env, config, e.outcome, a[1..], b, e.world);
    } else if a == [] {
      assert a + b == b;
    }
  }

  /** After the first step that reports an error or never calls back, no later step runs:
      whatever tasks follow, the run is the same. */
  lemma WaterfallStopsAtFailure(env: Env, config: Config, first: Outcome,
                                tasks: seq<CompiledStep>, more: seq<CompiledStep>, w: World)
    requires !Waterfall(env, config, first, tasks, w).final.Ok?
    ensures Waterfall(env, config, first, tasks + more, w) == Waterfall(env, config, first, tasks, w)
  {
    WaterfallAppend(env, config, first, tasks, more, w);
  }

  /** In a run that reaches its end without an error, every task runs, and task `i` is
      handed the context and the world the run of the tasks before it ended with. A send
      task then adds exactly its own payload, rendered against that context, and its
      two telemetry events, and consumes one acknowledgement; any other task leaves the
      payloads, the events and the acknowledgements as they were. */
  lemma SendsInOrder(env: Env, config: Config, ctx: Context, tasks: seq<CompiledStep>, w: World, i: nat)
    requires forall j :: 0 <= j < |tasks| ==> !tasks[j].CLoop?
    requires Waterfall(env, config, Ok(ctx), tasks, w).final.Ok?
    requires i < |tasks|
    ensures Waterfall(env, config, Ok(ctx), tasks, w).ran == |tasks|
    ensures var before := Waterfall(env, config, Ok(ctx), tasks[..i], w);
            var after := Waterfall(env, config, Ok(ctx), tasks[..i + 1], w);
            before.final.Ok? && before.ran == i && after.final.Ok? && after.ran == i + 1 &&
            (tasks[i].CSend? ==>
               Payload(env.js, env.render(tasks[i].template, before.final.ctx)).Some? &&
               after.world.sent ==
                 before.world.sent + [Payload(env.js, env.render(tasks[i].template, before.final.ctx)).value] &&
               after.world.log == before.world.log + [Counter(MessagesSent, 1), Rate(SendRate)] &&
               before.world.replies != [] && after.world.replies == before.world.replies[1..]) &&
            (!tasks[i].CSend? ==>
               after.world.sent == before.world.sent && after.world.log == before.world.log &&
               after.world.replies == before.world.replies)
  {
    var full := Waterfall(env, config, Ok(ctx), tasks, w);
    var before := Waterfall(env, config, Ok(ctx), tasks[..i], w);
    var after := Waterfall(env, config, Ok(ctx), tasks[..i + 1], w);
    assert tasks == tasks[..i + 1] + tasks[i + 1..];
    WaterfallAppend(env, config, Ok(ctx), tasks[..i + 1], tasks[i + 1..], w);
    assert after.final.Ok?;
    assert tasks[..i + 1] == tasks[..i] + [tasks[i]];
    WaterfallAppend(env, config, Ok(ctx), tasks[..i], [tasks[i]], w);
    assert before.final.Ok?;
    var e := ExecStep(env, config, tasks[i], before.final.ctx, before.world);
    assert Waterfall(env, config, before.final, [tasks[i]], before.world) ==
           Run(e.outcome, 1, e.world) by {
      assert [tasks[i]][1..] == [];
    }
    assert e.outcome.Ok?;
  }

  /** The first task that does not succeed ends the run: its outcome is the run's, and
      exactly the tasks up to and including it have run. */
  lemma FirstFailureEndsRun(env: Env, config: Config, first: Outcome, tasks: seq<CompiledStep>, w: World, k: nat)
    requires k < |tasks|
    requires Waterfall(env, config, first, tasks[..k], w).final.Ok?
    requires var p := Waterfall(env, config, first, tasks[..k], w);
             !ExecStep(env, config, tasks[k], p.final.ctx, p.world).outcome.Ok?
    ensures var p := Waterfall(env, config, first, tasks[..k], w);
            var e := ExecStep(env, config, tasks[k], p.final.ctx, p.world);
            Waterfall(env, config, first, tasks, w) == Run(e.outcome, k + 1, e.world)
  {
    var p := Waterfall(env, config, first, tasks[..k], w);
    var e := ExecStep(env, config, tasks[k], p.final.ctx, p.world);
    assert tasks == tasks[..k] + tasks[k..];
    WaterfallAppend(env, config, first, tasks[..k], tasks[k..], w);
    assert tasks[k..][0] == tasks[k];
    assert Waterfall(env, config, p.final, tasks[k..], p.world) == Run(e.outcome, 1, e.world);
  }

  /** How a run ends: the final callback's arguments, or a step that never calls back. */
  datatype Result = Finished(err: Option<Error>, ctx: Option<Context>) | Hung(why: Stall)

  /** A run's end together with the world afterwards. */
  datatype End = End(result: Result, world: World)

  /** `context && context.socket`. */
  predicate HoldsSocket(ctx: Option<Context>)
  {
    ctx.Some? && ctx.value.socket.Some?
  }

  /** The final callback of the waterfall: it closes the connection the context holds,
      and only that, then passes the error and the context on. It never runs when a
      step did not call back. */
  function Finish(o: Outcome, w: World): (r: End)
    ensures o.Stalled? <==> r.result.Hung?
    ensures o.Stalled? ==> r.world == w
    ensures r.world.log == w.log
    ensures o.Ok? ==> r.result == Finished(None, Some(o.ctx))
    ensures o.Err? ==> r.result == Finished(Some(o.err), o.errCtx)
    ensures r.result.Finished? && HoldsSocket(r.result.ctx) ==> r.world == w.(closes := w.closes + 1)
    ensures r.result.Finished? && !HoldsSocket(r.result.ctx) ==> r.world == w
  {
    match o
    case Stalled(why) => End(Hung(why), w)
    case Ok(c) => End(Finished(None, Some(c)), if HoldsSocket(Some(c)) then w.(closes := w.closes + 1) else w)
    case Err(e, c) => End(Finished(Some(e), c), if HoldsSocket(c) then w.(closes := w.closes + 1) else w)
  }

  /** The compiled `scenario(initialContext, callback)`: `_successCount` is set to 0,
      then `[zero] ++ tasks` runs as a waterfall and the final callback cleans up. */
  function RunScenario(env: Env, config: Config, tasks: seq<CompiledStep>, initial: Context,
                       events: seq<SocketEvent>, w: World): (r: End)
    // `started` is the first event of the run
    ensures |r.world.log| > |w.log| && r.world.log[..|w.log| + 1] == w.log + [Started]
    // the connection is closed exactly once if the final callback sees it, and otherwise never
    ensures r.result.Finished? ==> r.world.closes == w.closes + (if HoldsSocket(r.result.ctx) then 1 else 0)
    ensures r.result.Hung? ==> r.world.closes == w.closes
  {
    var ctx0 := initial.(successCount := Some(0));
    var hs := Handshake(events, ctx0, OpenSocket(config), w.(log := w.log + [Started]));
    var wf := Waterfall(env, config, hs.outcome, tasks, hs.world);
    Finish(wf.final, wf.world)
  }

  /** Once the connection says it is ready, the tasks run on the initial context with
      `_successCount` 0, holding the connection iff it reported `open` first. */
  lemma ReadyStartsTasks(env: Env, config: Config, tasks: seq<CompiledStep>, initial: Context,
                         pre: seq<SocketEvent>, m: map<string, Value>, rest: seq<SocketEvent>, w: World)
    requires Quiet(pre) && IsReady(m)
    ensures var ctx := initial.(successCount := Some(0),
                                socket := if Open in pre then Some(OpenSocket(config)) else initial.socket);
            var wf := Waterfall(env, config, Ok(ctx), tasks, w.(log := w.log + [Started]));
            RunScenario(env, config, tasks, initial, pre + [Message(m)] + rest, w) == Finish(wf.final, wf.world)
  {
    HandshakeReady(pre, m, rest, initial.(successCount := Some(0)), OpenSocket(config), w.(log := w.log + [Started]));
  }

  /** A connection error before readiness ends the run with the error and an empty
      context: no task runs and nothing is closed, even when `open` was reported. */
  lemma HandshakeFaultLeavesSocketOpen(env: Env, config: Config, tasks: seq<CompiledStep>, initial: Context,
                                       pre: seq<SocketEvent>, e: Error, rest: seq<SocketEvent>, w: World)
    requires Quiet(pre)
    ensures RunScenario(env, config, tasks, initial, pre + [Fault(e)] + rest, w) ==
            End(Finished(Some(e), Some(EmptyContext)),
                w.(log := w.log + [Started, ErrorText(Or(e.message, e.code))]))
  {
    var w0 := w.(log := w.log + [Started]);
    HandshakeFault(pre, e, rest, initial.(successCount := Some(0)), OpenSocket(config), w0);
    assert w0.log + [ErrorText(Or(e.message, e.code))] == w.log + [Started, ErrorText(Or(e.message, e.code))];
  }

  /** A handshake that never completes hangs the run: no task runs, the final callback
      never fires and nothing is closed, even when `open` was reported. */
  lemma QuietHandshakeHangs(env: Env, config: Config, tasks: seq<CompiledStep>, initial: Context,
                            events: seq<SocketEvent>, w: World)
    requires Quiet(events)
    ensures RunScenario(env, config, tasks, initial, events, w) ==
            End(Hung(NotReady), w.(log := w.log + [Started]))
  {
    QuietStalls(events, initial.(successCount := Some(0)), OpenSocket(config), w.(log := w.log + [Started]));
  }

  /** A step error after a successful handshake reaches the final callback with the
      failing step's context, which still holds the connection, so it is closed once. */
  lemma StepErrorClosesOnce(env: Env, config: Config, tasks: seq<CompiledStep>, initial: Context,
                            pre: seq<SocketEvent>, m: map<string, Value>, rest: seq<SocketEvent>, w: World,
                            k: nat, err: Error)
    requires Quiet(pre) && IsReady(m) && Open in pre
    requires forall i :: 0 <= i < |tasks| ==> tasks[i].CSend?
    requires k < |tasks| && |w.replies| > k && w.replies[k] == Some(err)
    requires forall i :: 0 <= i < k ==> w.replies[i].None?
    requires forall i :: 0 <= i <= k ==>
               Payload(env.js, env.render(tasks[i].template,
                 initial.(successCount := Some(0), socket := Some(OpenSocket(config))))).Some?
    ensures var r := RunScenario(env, config, tasks, initial, pre + [Message(m)] + rest, w);
            r.result.Finished? && r.result.err == Some(err) && HoldsSocket(r.result.ctx) &&
            r.world.closes == w.closes + 1
  {
    var ctx := initial.(successCount := Some(0), socket := Some(OpenSocket(config)));
    ReadyStartsTasks(env, config, tasks, initial, pre, m, rest, w);
    SendErrorAt(env, config, ctx, tasks, w.(log := w.log + [Started]), k, err);
  }

  /** In a flow of send steps on a context holding a connection, the first send the
      connection refuses ends the waterfall with that error and the same context. */
  lemma {:induction false} SendErrorAt(env: Env, config: Config, ctx: Context, tasks: seq<CompiledStep>, w: World,
                                       k: nat, err: Error)
    requires ctx.socket.Some?
    requires forall i :: 0 <= i < |tasks| ==> tasks[i].CSend?
    requires k < |tasks| && |w.replies| > k && w.replies[k] == Some(err)
    requires forall i :: 0 <= i < k ==> w.replies[i].None?
    requires forall i :: 0 <= i <= k ==> Payload(env.js, env.render(tasks[i].template, ctx)).Some?
    ensures var r := Waterfall(env, config, Ok(ctx), tasks, w);
            r.final == Err(err, Some(ctx)) && r.ran == k + 1
    decreases k
  {
    var e := ExecStep(env, config, tasks[0], ctx, w);
    if k > 0 {
      assert e.outcome == Ok(ctx);
      assert e.world.replies == w.replies[1..];
      forall i | 0 <= i <= k - 1 ensures Payload(env.js, env.render(tasks[1..][i].template, ctx)).Some? {
        assert tasks[1..][i] == tasks[i + 1];
      }
      SendErrorAt(env, config, ctx, tasks[1..], e.world, k - 1, err);
    }
  }

  /** The compiled scenario of one virtual user, with the connection's side of the
      conversation: the acknowledgements it will give, the payloads sent on it, how
      often it was closed, and the events emitted during the run. */
  class Runner {
    const config: Config
    const env: Env
    const tasks: seq<CompiledStep>
    var replies: seq<Option<Error>>
    var sent: seq<string>
    var closes: nat
    ghost var log: seq<Event>

    ghost function State(): World
      reads this
    {
      World(replies, sent, closes, log)
    }

    /** `createScenario`: compile the flow into the task list of the scenario. */
    constructor (config: Config, env: Env, flow: seq<StepSpec>, replies: seq<Option<Error>>)
      ensures this.config == config && this.env == env
      ensures tasks == CreateScenario(env.js, config, flow)
      ensures State() == World(replies, [], 0, [])
    {
      this.config := config;
      this.env := env;
      this.tasks := CreateScenario(env.js, config, flow);
      this.replies := replies;
      this.sent := [];
      this.closes := 0;
      this.log := [];
    }

    /** The send closure. */
    method Send(template: Value, ctx: Context) returns (o: Outcome)
      modifies this
      ensures Effect(o, State()) == ExecSend(env, template, ctx, old(State()))
    {
      log := log + [Counter(MessagesSent, 1), Rate(SendRate)];
      var payload := Payload(env.js, env.render(template, ctx));
      if payload.None? || ctx.socket.None? {
        return Stalled(SendThrew);
      }
      sent := sent + [payload.value];
      if replies == [] {
        return Stalled(NoAck);
      }
      var reply := replies[0];
      replies := replies[1..];
      if reply.Some? {
        log := log + [ErrorObject(reply.value)];
        o := Err(reply.value, Some(ctx));
      } else {
        o := Ok(ctx);
      }
    }

    /** Run one compiled step. */
    method RunStep(step: CompiledStep, ctx: Context) returns (o: Outcome)
      modifies this
      ensures Effect(o, State()) == ExecStep(env, config, step, ctx, old(State()))
    {
      match step
      case CSend(template) =>
        o := Send(template, ctx);
      case CFunc(name) =>
        o := ExecFunction(env, config, name, ctx);
      case CThink(_, _) =>
        o := env.runUtil(step, ctx);
      case CLoop(_, _, _) =>
        o := env.runUtil(step, ctx);
    }

    /** The handshake step `zero`: emit `started`, open the connection, then handle its
      events in order until one completes or fails the handshake. */
    method Zero(ctx0: Context, events: seq<SocketEvent>) returns (o: Outcome)
      modifies this
      ensures Effect(o, State()) == Handshake(events, ctx0, OpenSocket(config), old(State()).(log := old(log) + [Started]))
    {
      log := log + [Started];
      var sock := OpenSocket(config);
      ghost var spec := Handshake(events, ctx0, sock, State());
      var ctx := ctx0;
      var i := 0;
      while i < |events|
        invariant 0 <= i <= |events|
        invariant State() == old(State()).(log := old(log) + [Started])
        invariant Handshake(events[i..], ctx, sock, State()) == spec
        decreases |events| - i
      {
        assert events[i..][0] == events[i] && events[i..][1..] == events[i + 1..];
        match events[i] {
          case Open =>
            ctx := ctx.(socket := Some(sock));
          case Message(m) =>
            if IsReady(m) {
              return Ok(ctx);
            }
          case Fault(e) =>
            log := log + [ErrorText(Or(e.message, e.code))];
            return Err(e, Some(EmptyContext));
        }
        i := i + 1;
      }
      o := Stalled(NotReady);
    }

    /** The compiled `scenario(initialContext, callback)`. */
    method Scenario(initial: Context, events: seq<SocketEvent>) returns (r: Result)
      modifies this
      ensures End(r, State()) == RunScenario(env, config, tasks, initial, events, old(State()))
    {
      var o := Zero(initial.(successCount := Some(0)), events);
      ghost var spec := Waterfall(env, config, o, tasks, State());
      var i := 0;
      while i < |tasks| && o.Ok?
        invariant 0 <= i <= |tasks|
        invariant Waterfall(env, config, o, tasks[i..], State()).final == spec.final
        invariant Waterfall(env, config, o, tasks[i..], State()).world == spec.world
        decreases |tasks| - i
      {
        assert tasks[i..][0] == tasks[i] && tasks[i..][1..] == tasks[i + 1..];
        o := RunStep(tasks[i], o.ctx);
        i := i + 1;
      }
      match o
      case Stalled(why) =>
        r := Hung(why);
      case Ok(c) =>
        if c.socket.Some? {
          closes := closes + 1;
        }
        r := Finished(None, Some(c));
      case Err(e, c) =>
        if c.Some? && c.value.socket.Some? {
          closes := closes + 1;
        }
        r := Finished(Some(e), c);
    }
  }
}
