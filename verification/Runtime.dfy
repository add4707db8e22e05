/** The mutable objects of a run: the tracer and the step context, each method
    proved against the function of `Trace`, `Books` or `Interpreter` it does
    the work of. */
module Runtime {
  import opened Prelude
  import opened Costs
  import opened Trace
  import opened Books
  import opened Template
  import opened Plans
  import I = Interpreter

  class Tracer {
    var spans: seq<Span>
    var current: nat
    var events: seq<Event>
    var finished: bool
    const costs: CostTracker
    ghost var log: seq<Act>

    function View(): Trace
      reads this
    {
      Trace(spans, current, events, finished)
    }

    ghost function Both(): Books
      reads this, costs
    {
      Books(View(), costs.View(), log)
    }

    constructor (costs: CostTracker)
      ensures View() == NewTrace() && this.costs == costs && log == []
    {
      spans := [Span(None, Root, Running, None, [])];
      current, events, finished := 0, [], false;
      this.costs := costs;
      log := [];
    }

    method AttachSpan(kind: SpanKind) returns (id: nat)
      modifies `spans, `events
      ensures View() == Attach(old(View()), kind) && id == old(|spans|)
    {
      id := |spans|;
      if current < |spans| {
        var parent := spans[current];
        spans := spans[current := parent.(children := parent.children + [id])];
        spans := spans + [Span(Some(current), kind, Running, None, [])];
        events := events + [Started(id)];
      }
    }

    method EnterSpan(kind: SpanKind) returns (id: nat)
      modifies this
      ensures Both() == Opens(old(Both()), kind) && id == old(|spans|)
    {
      id := AttachSpan(kind);
      current := id;
      log := log + [Opened(kind)];
    }

    /** A span for a task with a context of its own. */
    method SpawnSpan() returns (id: nat)
      modifies this
      ensures Both() == Spawn(old(Both())) && id == old(|spans|)
    {
      id := AttachSpan(ToolSpan);
      log := log + [Spawned];
    }

    method SettleSpan(id: nat, status: Status)
      modifies `spans, `events
      ensures View() == Settle(old(View()), id, status)
    {
      if id < |spans| {
        spans := spans[id := spans[id].(status := status)];
        events := events + [Ended(id)];
      }
    }

    /** The end of such a task. */
    method ReturnSpan(id: nat, status: Status)
      modifies this
      ensures Both() == Settles(old(Both()), id, status)
    {
      SettleSpan(id, status);
      log := log + [Settled(id, status)];
    }

    method LeaveSpan(status: Status)
      modifies this
      ensures Both() == Closes(old(Both()), status)
    {
      var parent := if current < |spans| then spans[current].parent else None;
      SettleSpan(current, status);
      current := if parent.Some? then parent.value else 0;
      log := log + [Left(status)];
    }

    method RecordCost(kind: Kind, name: string, cost: Cost, span: nat) returns (raised: bool)
      modifies this, costs
      ensures Both() == Bill(old(Both()), span, kind, name, cost)
      ensures raised <==> costs.View().Over()
    {
      if span < |spans| {
        spans := spans[span := spans[span].(cost := Some(cost))];
      }
      raised := costs.Add(Record(kind, name, cost, span));
      if !raised {
        events := events + [Charged(span, cost, costs.View().Spent())];
      }
      log := log + [Billed(span, kind, name, cost)];
    }

    /** Idempotent: a second call changes nothing. */
    method FinishRun(failed: bool)
      modifies this
      ensures View() == Finish(old(View()), failed) && log == old(log)
    {
      if !finished && spans != [] {
        var status := if failed then Errored
                      else if spans[0].status == Running then Succeeded else spans[0].status;
        SettleSpan(0, status);
        finished := true;
      }
    }
  }

  class StepContext {
    const env: I.Env
    const tracer: Tracer
    var state: State
    var asked: nat
    var completions: nat
    var posts: nat
    var stragglers: seq<I.Straggler>

    ghost function World(): I.World
      reads this, tracer, tracer.costs
    {
      I.World(state, tracer.Both(), asked, completions, posts, stragglers)
    }

    constructor (env: I.Env, tracer: Tracer, state: State)
      ensures this.env == env && this.tracer == tracer
      ensures World() == I.World(state, tracer.Both(), 0, 0, 0, [])
    {
      this.env, this.tracer, this.state := env, tracer, state;
      asked, completions, posts, stragglers := 0, 0, 0, [];
    }

    method Set(key: string, value: Value)
      modifies this
      ensures World() == I.SetOutput(old(World()), key, value)
    {
      state := state["last" := value];
      if key != "" {
        state := state[key := value];
      }
    }

    /** One call of the model in a span of its own. */
    method Ask(kind: SpanKind, attempts: int) returns (r: I.Res<I.Completion>)
      modifies this, tracer, tracer.costs
      ensures (World(), r) == I.Ask(env, kind, attempts, old(World()))
    {
      hide I.Fetch, Enter, Leave, Bill;
      var source := env.reply(asked).source;
      var (got, made) := I.Fetch(attempts, source);
      var span := tracer.EnterSpan(kind);
      asked, completions, posts := asked + 1, completions + 1, posts + made;
      assert World() == I.Enters(old(World()), kind).(asked := asked, completions := completions, posts := posts);
      if got.None? {
        tracer.LeaveSpan(Errored);
        return Err(I.Provider);
      }
      var raised := tracer.RecordCost(LlmCall, "model", got.value.cost, span);
      tracer.LeaveSpan(if raised then Errored else Succeeded);
      return if raised then Err(I.OverBudget) else Ok(got.value);
    }

    /** A concurrent call returns. */
    method Land(s: I.Straggler) returns (raised: bool)
      modifies tracer, tracer.costs
      ensures (World(), raised) == I.Lands(old(World()), s)
    {
      raised := false;
      if I.Billable(s.answer.cost) {
        raised := tracer.RecordCost(ToolCharge, s.tool, s.answer.cost.value, s.span);
      }
      tracer.ReturnSpan(s.span, if s.answer.ok && !raised then Succeeded else Errored);
    }

    method Straggle(n: nat, picks: nat -> nat)
      modifies this, tracer, tracer.costs
      ensures World() == I.Straggles(old(World()), n, picks)
    {
      var left := n;
      while left > 0 && stragglers != []
        invariant I.Straggles(old(World()), n, picks) == I.Straggles(World(), left, picks)
        decreases left
      {
        var i := picks(|stragglers|) % |stragglers|;
        var _ := Land(stragglers[i]);
        stragglers := Without(stragglers, i);
        left := left - 1;
      }
    }

    /** Opens a span for every known tool of the turn. */
    method Spawn(calls: seq<I.Request>) returns (inAir: seq<I.Straggler>)
      modifies tracer
      ensures (World(), inAir) == I.Spawns(old(World()), env.tools, calls)
    {
      inAir := [];
      var i := 0;
      assert calls[0..] == calls;
      assert [] + I.Spawns(World(), env.tools, calls).1 == I.Spawns(World(), env.tools, calls).1;
      while i < |calls|
        invariant 0 <= i <= |calls|
        invariant var (w, rest) := I.Spawns(World(), env.tools, calls[i..]);
                  (w, inAir + rest) == I.Spawns(old(World()), env.tools, calls)
        invariant tracer.costs.View() == old(tracer.costs.View())
      {
        assert calls[i..][1..] == calls[i + 1..];
        var call := calls[i];
        if call.tool in env.tools {
          ghost var rest := I.Spawns(World(), env.tools, calls[i..]).1;
          var span := tracer.SpawnSpan();
          var s := I.Straggler(span, call.tool, call.answer);
          assert rest == [s] + rest[1..] && (inAir + [s]) + rest[1..] == inAir + rest;
          inAir := inAir + [s];
        }
        i := i + 1;
      }
      assert inAir + [] == inAir;
    }

    /** The scheduler: calls return in the order the outside picks. */
    method Drain(calls: seq<I.Straggler>, picks: nat -> nat) returns (raised: bool)
      modifies this, tracer, tracer.costs
      ensures (World(), raised) == I.Drains(old(World()), calls, picks)
    {
      var inAir := calls;
      while inAir != []
        invariant I.Drains(old(World()), calls, picks) == I.Drains(World(), inAir, picks)
        decreases |inAir|
      {
        var i := picks(|inAir|) % |inAir|;
        raised := Land(inAir[i]);
        inAir := Without(inAir, i);
        if raised {
          stragglers := stragglers + inAir;
          return;
        }
      }
      return false;
    }

    /** `Toolbox.call_many`. */
    method CallMany(calls: seq<I.Request>, reply: I.Reply) returns (r: I.Res<()>)
      modifies this, tracer, tracer.costs
      ensures (World(), r) == I.Batch(env, old(World()), calls, reply)
    {
      var inAir := Spawn(calls);
      if !I.AllKnown(env.tools, calls) {
        stragglers := stragglers + inAir;
        Straggle(reply.landing, reply.picks);
        return Err(I.UnknownTool);
      }
      var raised := Drain(inAir, reply.picks);
      if raised {
        Straggle(reply.landing, reply.picks);
        return Err(I.OverBudget);
      }
      return Ok(());
    }

    /** The tool loop of a prompt. */
    method ToolLoop(turns: nat) returns (r: I.Res<I.Completion>)
      modifies this, tracer, tracer.costs
      ensures (World(), r) == I.Turns(env, turns, None, old(World()))
    {
      var completion: Option<I.Completion> := None;
      var left := turns;
      while left > 0
        invariant I.Turns(env, turns, None, old(World())) == I.Turns(env, left, completion, World())
      {
        var reply := env.reply(asked);
        r := Ask(ModelSpan, env.maxAttempts);
        if r.Err? || r.value.calls == [] {
          return;
        }
        completion := Some(r.value);
        var called := CallMany(r.value.calls, reply);
        if called.Err? {
          return Err(called.error);
        }
        left := left - 1;
      }
      return if completion.None? then Err(I.NoCompletion) else Ok(completion.value);
    }

    method Cite(citations: seq<Value>) returns (r: I.Res<()>)
      modifies this
      ensures (World(), r) == I.Cites(old(World()), citations)
    {
      if citations == [] {
        return Ok(());
      }
      if "citations" !in state {
        state := state["citations" := List(citations)];
        return Ok(());
      }
      if !state["citations"].List? {
        return Err(I.BadCitations);
      }
      state := state["citations" := List(state["citations"].items + citations)];
      return Ok(());
    }

    method RunPrompt(step: Step) returns (r: I.Res<Value>)
      requires step.Prompt?
      modifies this, tracer, tracer.costs
      ensures (World(), r) == I.RunPrompt(env, step, old(World()))
    {
      hide I.Ask, I.Turns, I.Cites, I.Answer, Render;
      var rendered := Render(step.prompt, state, env.show, env.attrs);
      if rendered.Err? {
        return Err(I.Unresolved(rendered.error));
      }
      if step.stream && !I.OffersTools(env, step.tools) && env.listening {
        var c := Ask(ModelSpan, 1);
        return if c.Err? then Err(c.error) else I.Answer(c.value, step.schema);
      }
      var c := ToolLoop(AtLeast0(step.maxToolIterations + 1));
      if c.Err? {
        return Err(c.error);
      }
      var cited := Cite(c.value.citations);
      return if cited.Err? then Err(cited.error) else I.Answer(c.value, step.schema);
    }

    method RunTool(step: Step) returns (r: I.Res<Value>)
      requires step.Tool?
      modifies this, tracer, tracer.costs
      ensures (World(), r) == I.RunTool(env, step, old(World()))
    {
      hide I.RenderArgs, Enter, Leave, Bill;
      var missing := I.RenderArgs(step.args, env, state);
      if missing.Some? {
        return Err(I.Unresolved(missing.value));
      }
      if step.tool !in env.tools {
        return Err(I.UnknownTool);
      }
      var a := env.reply(asked).answer;
      var span := tracer.EnterSpan(ToolSpan);
      asked := asked + 1;
      var raised := false;
      if I.Billable(a.cost) {
        raised := tracer.RecordCost(ToolCharge, step.tool, a.cost.value, span);
      }
      tracer.LeaveSpan(if a.ok && !raised then Succeeded else Errored);
      return if raised then Err(I.OverBudget)
             else if !a.ok && !step.failOk then Err(I.ToolRefused)
             else Ok(if a.ok then a.output else Dict(map["error" := Text(a.error)]));
    }

    method ShouldStop(step: Step) returns (r: I.Res<bool>)
      requires step.Loop?
      modifies this, tracer, tracer.costs
      ensures (World(), r) == I.ShouldStop(env, step, old(World()))
    {
      if step.until.Some? {
        r := I.Holds(env, step.until.value, state);
        if r.Err? || r.value {
          return;
        }
      }
      if step.untilPrompt.None? {
        return Ok(false);
      }
      var rendered := Render(step.untilPrompt.value, state, env.show, env.attrs);
      if rendered.Err? {
        var _ := tracer.EnterSpan(StopCheckSpan);
        tracer.LeaveSpan(Errored);
        return Err(I.Unresolved(rendered.error));
      }
      var c := Ask(StopCheckSpan, env.maxAttempts);
      return if c.Err? then Err(c.error) else Ok(I.Verdict(c.value));
    }

    method RunLoop(step: Step) returns (r: I.Res<Value>)
      requires step.Loop?
      modifies this, tracer, tracer.costs
      ensures (World(), r) == I.RunLoop(env, step, old(World()))
      decreases step, 1
    {
      var outer := state;
      state := state["loop_results" := List([])];
      var results: seq<Value> := [];
      ghost var start := World();
      var index := 0;
      while index < step.maxLoops
        invariant I.Iterations(env, step, 0, [], start) == I.Iterations(env, step, index, results, World())
        decreases step.maxLoops - index
      {
        state := state["loop_index" := Num(index as real)];
        state := state["loop_iteration" := Num((index + 1) as real)];
        var _ := tracer.EnterSpan(IterationSpan);
        var body := RunSteps(step.steps);
        if body.Err? {
          tracer.LeaveSpan(Errored);
          return Err(body.error);
        }
        results := results + [body.value];
        tracer.LeaveSpan(Succeeded);
        state := state["loop_results" := List(results)];
        var stop := ShouldStop(step);
        if stop.Err? {
          return Err(stop.error);
        }
        if stop.value {
          break;
        }
        index := index + 1;
      }
      assert I.Iterations(env, step, 0, [], start) == (World(), Ok(results));
      state := I.Restores(outer, I.COUNTERS, state);
      return Ok(I.Collected(step, results));
    }

    method Execute(step: Step) returns (r: I.Res<Value>)
      modifies this, tracer, tracer.costs
      ensures (World(), r) == I.Exec(env, step, old(World()))
      decreases step, 2
    {
      hide I.Holds, I.RunPrompt, I.RunTool, I.RunLoop, Enter, Leave;
      if step.head.skipIf.Some? {
        var skip := I.Holds(env, step.head.skipIf.value, state);
        if skip.Err? {
          return Err(skip.error);
        }
        if skip.value {
          var _ := tracer.EnterSpan(SkippedStep);
          tracer.LeaveSpan(Skipped);
          return Ok(I.Last(state));
        }
      }
      var refused := tracer.costs.Check();
      if refused {
        return Err(I.OverBudget);
      }
      var _ := tracer.EnterSpan(if step.Loop? then LoopSpan else StepSpan);
      match step {
        case Prompt(_, _, _, _, _, _) => r := RunPrompt(step);
        case Tool(_, _, _, _) => r := RunTool(step);
        case Loop(_, _, _, _, _, _) => r := RunLoop(step);
      }
      tracer.LeaveSpan(if r.Ok? then Succeeded else Errored);
      if r.Ok? {
        Set(step.head.outputKey, r.value);
      }
    }

    /** `Plan.execute`, and one pass over the body of a loop. */
    method RunSteps(plan: Plan) returns (r: I.Res<Value>)
      modifies this, tracer, tracer.costs
      ensures (World(), r) == I.ExecAll(env, plan, Null, old(World()))
      decreases plan, 0
    {
      var result := Null;
      var i := 0;
      while i < |plan|
        invariant 0 <= i <= |plan|
        invariant I.ExecAll(env, plan, Null, old(World())) == I.ExecAll(env, plan[i..], result, World())
      {
        assert plan[i..][0] == plan[i] && plan[i..][1..] == plan[i + 1..];
        r := Execute(plan[i]);
        if r.Err? {
          return;
        }
        result := r.value;
        i := i + 1;
      }
      return Ok(result);
    }
  }
}
