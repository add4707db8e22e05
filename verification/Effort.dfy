/** How much work a plan can make, and which keys it can leave in state. */
module Effort {
  import opened Prelude
  import opened Costs
  import opened Trace
  import opened Books
  import opened Template
  import opened Plans
  import opened Interpreter
  import Retry

  // ---- concurrent calls touch books only ----

  predicate SameElse(w: World, w': World) {
    w'.state == w.state && w'.asked == w.asked && w'.completions == w.completions && w'.posts == w.posts
  }

  lemma {:induction false} SpawnsElse(w: World, tools: set<string>, calls: seq<Request>)
    ensures SameElse(w, Spawns(w, tools, calls).0)
    decreases calls
  {
    if calls != [] {
      SpawnsElse(if calls[0].tool !in tools then w
                 else w.(books := Spawn(w.books)), tools, calls[1..]);
    }
  }

  lemma {:induction false} DrainsElse(w: World, inAir: seq<Straggler>, picks: nat -> nat)
    ensures SameElse(w, Drains(w, inAir, picks).0)
    decreases |inAir|
  {
    if inAir != [] {
      var i := picks(|inAir|) % |inAir|;
      DrainsElse(Lands(w, inAir[i]).0, Without(inAir, i), picks);
    }
  }

  lemma {:induction false} StragglesElse(w: World, n: nat, picks: nat -> nat)
    ensures SameElse(w, Straggles(w, n, picks))
    decreases n
  {
    if n > 0 && w.stragglers != [] {
      var i := picks(|w.stragglers|) % |w.stragglers|;
      StragglesElse(Lands(w, w.stragglers[i]).0.(stragglers := Without(w.stragglers, i)), n - 1, picks);
    }
  }

  lemma BatchElse(env: Env, w: World, calls: seq<Request>, reply: Reply)
    ensures SameElse(w, Batch(env, w, calls, reply).0)
  {
    SpawnsElse(w, env.tools, calls);
    var (w1, inAir) := Spawns(w, env.tools, calls);
    StragglesElse(w1.(stragglers := w1.stragglers + inAir), reply.landing, reply.picks);
    DrainsElse(w1, inAir, reply.picks);
    StragglesElse(Drains(w1, inAir, reply.picks).0, reply.landing, reply.picks);
  }

  // ---- the static cost is an upper bound ----

  function Tries(env: Env): nat {
    if env.maxAttempts >= 1 then env.maxAttempts else 1
  }

  /** At most `k` completions between the two states, and at most `Tries` posts
      for each of them. */
  predicate Made(env: Env, w: World, w': World, k: nat) {
    && w.completions <= w'.completions <= w.completions + k
    && w'.posts <= w.posts + Tries(env) * (w'.completions - w.completions)
  }

  lemma MadeNothing(env: Env, w: World, k: nat)
    ensures Made(env, w, w, k)
  {
  }

  /** Made is about the two counters only. */
  lemma MadeAround(env: Env, w: World, w': World, u: World, u': World, k: nat)
    requires Made(env, w, w', k)
    requires u.completions == w.completions && u.posts == w.posts
    requires u'.completions == w'.completions && u'.posts == w'.posts
    ensures Made(env, u, u', k)
  {
  }

  lemma MadeTrans(env: Env, w0: World, w1: World, w2: World, k: nat, l: nat)
    requires Made(env, w0, w1, k) && Made(env, w1, w2, l)
    ensures Made(env, w0, w2, k + l)
  {
    var a, x, y := Tries(env), w1.completions - w0.completions, w2.completions - w1.completions;
    assert a * (x + y) == a * x + a * y;
  }

  lemma AskMade(env: Env, kind: SpanKind, attempts: int, w: World)
    requires attempts in {1, env.maxAttempts}
    ensures Made(env, w, Ask(env, kind, attempts, w).0, 1)
    ensures Ask(env, kind, attempts, w).0.completions == w.completions + 1
    ensures Ask(env, kind, attempts, w).0.state == w.state
  {
    var s := env.reply(w.asked).source;
    if s.FromProvider? { Retry.AttemptsBounded(attempts, s.tries); }
  }

  lemma {:induction false} TurnsMade(env: Env, turns: nat, last: Option<Completion>, w: World)
    ensures Made(env, w, Turns(env, turns, last, w).0, turns)
    ensures Turns(env, turns, last, w).0.state == w.state
    decreases turns
  {
    hide Ask, Batch;
    if turns > 0 {
      AskMade(env, ModelSpan, env.maxAttempts, w);
      var (w1, c) := Ask(env, ModelSpan, env.maxAttempts, w);
      if c.Ok? && c.value.calls != [] {
        BatchElse(env, w1, c.value.calls, env.reply(w.asked));
        var (w2, b) := Batch(env, w1, c.value.calls, env.reply(w.asked));
        if b.Ok? {
          TurnsMade(env, turns - 1, Some(c.value), w2);
          MadeTrans(env, w, w2, Turns(env, turns - 1, Some(c.value), w2).0, 1, turns - 1);
        }
      }
    }
  }

  lemma PromptMade(env: Env, step: Step, w: World)
    requires step.Prompt?
    ensures Made(env, w, RunPrompt(env, step, w).0, Budget(step))
    ensures RunPrompt(env, step, w).0.state.Keys <= w.state.Keys + {"citations"}
  {
    hide Ask;
    AskMade(env, ModelSpan, 1, w);
    TurnsMade(env, AtLeast0(step.maxToolIterations + 1), None, w);
  }

  lemma StopMade(env: Env, step: Step, w: World)
    requires step.Loop?
    ensures Made(env, w, ShouldStop(env, step, w).0, if step.untilPrompt.Some? then 1 else 0)
    ensures ShouldStop(env, step, w).0.state == w.state
  {
    hide Ask;
    AskMade(env, StopCheckSpan, env.maxAttempts, w);
  }

  lemma OneMore(left: nat, once: nat)
    requires left > 0
    ensures left * once == once + (left - 1) * once && (left - 1) * once >= 0
  {
  }

  lemma MadeLess(env: Env, w: World, w': World, k: nat, l: nat)
    requires Made(env, w, w', k) && k <= l
    ensures Made(env, w, w', l)
  {
  }

  lemma {:induction false} IterationsMade(env: Env, step: Step, index: nat, results: seq<Value>, w: World)
    requires step.Loop?
    ensures Made(env, w, Iterations(env, step, index, results, w).0,
                 AtLeast0(step.maxLoops - index) * (PlanBudget(step.steps) + if step.untilPrompt.Some? then 1 else 0))
    decreases step, 1, step.maxLoops - index
  {
    hide ShouldStop, Made, Enter, Leave;
    if index >= step.maxLoops {
      MadeNothing(env, w, 0);
    } else {
      var once := PlanBudget(step.steps) + if step.untilPrompt.Some? then 1 else 0;
      var left: nat := step.maxLoops - index;
      OneMore(left, once);
      var w1 := Puts(Puts(w, "loop_index", Num(index as real)), "loop_iteration", Num((index + 1) as real));
      var e := Enters(w1, IterationSpan);
      ExecAllMade(env, step.steps, Null, e);
      var (w2, r) := ExecAll(env, step.steps, Null, e);
      MadeAround(env, e, w2, w, Leaves(w2, r.Ok?), PlanBudget(step.steps));
      if r.Err? {
        MadeLess(env, w, Leaves(w2, false), PlanBudget(step.steps), left * once);
      } else {
        var results' := results + [r.value];
        var w3 := Puts(Leaves(w2, true), "loop_results", List(results'));
        MadeAround(env, e, w2, w, w3, PlanBudget(step.steps));
        StopMade(env, step, w3);
        var (w4, stop) := ShouldStop(env, step, w3);
        MadeTrans(env, w, w3, w4, PlanBudget(step.steps), if step.untilPrompt.Some? then 1 else 0);
        if stop.Ok? && !stop.value {
          IterationsMade(env, step, index + 1, results', w4);
          MadeTrans(env, w, w4, Iterations(env, step, index + 1, results', w4).0, once, (left - 1) * once);
        } else {
          MadeLess(env, w, w4, once, left * once);
        }
      }
    }
  }

  lemma {:induction false} RunStepMade(env: Env, step: Step, w: World)
    ensures Made(env, w, RunStep(env, step, w).0, Budget(step))
    decreases step, 3
  {
    hide RunPrompt, RunTool, Made, Iterations;
    match step
    case Prompt(_, _, _, _, _, _) => PromptMade(env, step, w);
    case Tool(_, _, _, _) => ToolMade(env, step, w);
    case Loop(_, _, _, _, _, _) =>
      var w0 := Puts(w, "loop_results", List([]));
      IterationsMade(env, step, 0, [], w0);
      MadeAround(env, w0, Iterations(env, step, 0, [], w0).0, w, RunLoop(env, step, w).0, Budget(step));
  }

  lemma {:induction false} ExecMade(env: Env, step: Step, w: World)
    ensures Made(env, w, Exec(env, step, w).0, Budget(step))
    decreases step, 4
  {
    hide RunStep, Holds, Made;
    MadeNothing(env, w, Budget(step));
    var skipped := w.(books := Closes(Opens(w.books, SkippedStep), Skipped));
    MadeAround(env, w, w, w, skipped, Budget(step));
    var w1 := Enters(w, if step.Loop? then LoopSpan else StepSpan);
    RunStepMade(env, step, w1);
    var (w2, r) := RunStep(env, step, w1);
    var w3 := Leaves(w2, r.Ok?);
    MadeAround(env, w1, w2, w, if r.Ok? then SetOutput(w3, step.head.outputKey, r.value) else w3, Budget(step));
  }

  lemma ToolMade(env: Env, step: Step, w: World)
    requires step.Tool?
    ensures Made(env, w, RunTool(env, step, w).0, 0) && RunTool(env, step, w).0.state == w.state
  {
  }

  /** The completions of any run of a plan are at most its static budget, and
      the posts at most the allowed attempts for each completion. */
  lemma {:induction false} ExecAllMade(env: Env, plan: Plan, acc: Value, w: World)
    ensures Made(env, w, ExecAll(env, plan, acc, w).0, PlanBudget(plan))
    decreases plan, 0
  {
    hide Exec;
    if plan != [] {
      ExecMade(env, plan[0], w);
      var (w1, r) := Exec(env, plan[0], w);
      if r.Ok? {
        ExecAllMade(env, plan[1..], r.value, w1);
        MadeTrans(env, w, w1, ExecAll(env, plan[1..], r.value, w1).0, Budget(plan[0]), PlanBudget(plan[1..]));
      }
    }
  }

  // ---- the keys of state ----

  /** Keys are never removed, and new ones come from `allowed`. */
  predicate KeysFrom(w: World, w': World, allowed: set<string>) {
    w.state.Keys <= w'.state.Keys <= w.state.Keys + allowed
  }

  lemma {:induction false} RestoresKeys(before: State, keys: seq<string>, s: State)
    requires before.Keys <= s.Keys
    ensures Restores(before, keys, s).Keys == s.Keys
  {
    if keys != [] {
      var k := keys[0];
      RestoresKeys(before, keys[1..], if k in before && before[k] != Null then s[k := before[k]] else s);
    }
  }

  lemma PromptKeys(env: Env, step: Step, w: World)
    requires step.Prompt?
    ensures KeysFrom(w, RunPrompt(env, step, w).0, RUNTIME_KEYS)
  {
    hide Ask;
    AskMade(env, ModelSpan, 1, w);
    TurnsMade(env, AtLeast0(step.maxToolIterations + 1), None, w);
  }

  lemma {:induction false} IterationsKeys(env: Env, step: Step, index: nat, results: seq<Value>, w: World)
    requires step.Loop?
    ensures KeysFrom(w, Iterations(env, step, index, results, w).0, PlanWrites(step.steps) + RUNTIME_KEYS)
    decreases step, 1, step.maxLoops - index
  {
    hide ShouldStop;
    if index < step.maxLoops {
      var w1 := Puts(Puts(w, "loop_index", Num(index as real)), "loop_iteration", Num((index + 1) as real));
      var e := Enters(w1, IterationSpan);
      ExecAllKeys(env, step.steps, Null, e);
      var (w2, r) := ExecAll(env, step.steps, Null, e);
      if r.Ok? {
        var results' := results + [r.value];
        var w3 := Puts(Leaves(w2, true), "loop_results", List(results'));
        StopMade(env, step, w3);
        var (w4, stop) := ShouldStop(env, step, w3);
        if stop.Ok? && !stop.value {
          IterationsKeys(env, step, index + 1, results', w4);
        }
      }
    }
  }

  lemma LoopKeys(env: Env, step: Step, w: World)
    requires step.Loop?
    requires KeysFrom(Puts(w, "loop_results", List([])),
                      Iterations(env, step, 0, [], Puts(w, "loop_results", List([]))).0,
                      PlanWrites(step.steps) + RUNTIME_KEYS)
    ensures KeysFrom(w, RunLoop(env, step, w).0, PlanWrites(step.steps) + RUNTIME_KEYS)
  {
    var (w1, r) := Iterations(env, step, 0, [], Puts(w, "loop_results", List([])));
    if r.Ok? { RestoresKeys(w.state, COUNTERS, w1.state); }
  }

  lemma {:induction false} RunStepKeys(env: Env, step: Step, w: World)
    ensures KeysFrom(w, RunStep(env, step, w).0, Writes(step) + RUNTIME_KEYS)
    decreases step, 3
  {
    hide RunPrompt, RunTool, RunLoop;
    match step
    case Prompt(_, _, _, _, _, _) => PromptKeys(env, step, w);
    case Tool(_, _, _, _) => ToolMade(env, step, w);
    case Loop(_, _, _, _, _, _) =>
      IterationsKeys(env, step, 0, [], Puts(w, "loop_results", List([])));
      LoopKeys(env, step, w);
  }

  lemma {:induction false} ExecKeys(env: Env, step: Step, w: World)
    ensures KeysFrom(w, Exec(env, step, w).0, Writes(step) + RUNTIME_KEYS)
    decreases step, 4
  {
    hide RunStep, Holds;
    RunStepKeys(env, step, Enters(w, if step.Loop? then LoopSpan else StepSpan));
  }

  /** Every key of a final state was there initially, is written by the plan,
      or is one of the runtime's own. */
  lemma {:induction false} ExecAllKeys(env: Env, plan: Plan, acc: Value, w: World)
    ensures KeysFrom(w, ExecAll(env, plan, acc, w).0, PlanWrites(plan) + RUNTIME_KEYS)
    decreases plan, 0
  {
    hide Exec;
    if plan != [] {
      ExecKeys(env, plan[0], w);
      var (w1, r) := Exec(env, plan[0], w);
      if r.Ok? { ExecAllKeys(env, plan[1..], r.value, w1); }
    }
  }

  /** So a required input that the caller left out, and that the runtime does
      not write either, is available to no step of the run. */
  lemma OmittedInputNeverAppears(env: Env, plan: Plan, w: World, name: string)
    requires name in RequiredInputs(plan) && name !in RUNTIME_KEYS && name !in w.state
    ensures name !in ExecAll(env, plan, Null, w).0.state
  {
    ExecAllKeys(env, plan, Null, w);
  }

  /** A prompt that needs it fails on it, before anything is asked. */
  lemma MissingInputStopsPrompt(env: Env, step: Step, w: World, name: string)
    requires step.Prompt? && name in Reads(step) && name !in w.state
    ensures var (w', r) := RunPrompt(env, step, w);
            w' == w && r.Err? && r.error.Unresolved?
  {
    MissingRootFails(step.prompt, w.state, env.show, env.attrs, name);
  }

  // ---- nested loops ----

  lemma {:induction false} RestoresBack(before: State, keys: seq<string>, s: State, k: string)
    requires k in before && before[k] != Null
    requires k in keys || (k in s && s[k] == before[k])
    ensures k in Restores(before, keys, s) && Restores(before, keys, s)[k] == before[k]
  {
    if keys != [] {
      var c := keys[0];
      RestoresBack(before, keys[1..], if c in before && before[c] != Null then s[c := before[c]] else s, k);
    }
  }

  /** A loop that ends normally gives the enclosing loop its counters back, as
      they were, whatever its body did to them. */
  lemma NestedLoopRestores(env: Env, step: Step, w: World, k: string)
    requires step.Loop? && RunLoop(env, step, w).1.Ok?
    requires k in COUNTERS && k in w.state && w.state[k] != Null
    ensures var w' := RunLoop(env, step, w).0; k in w'.state && w'.state[k] == w.state[k]
  {
    hide Iterations;
    RestoresBack(w.state, COUNTERS, Iterations(env, step, 0, [], Puts(w, "loop_results", List([]))).0.state, k);
  }
}
