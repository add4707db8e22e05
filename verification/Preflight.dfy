/** Does the static analysis of a plan say what its execution needs? */
module Preflight {
  import opened Prelude
  import opened Trace
  import opened Books
  import opened Template
  import opened Plans
  import opened Interpreter
  import opened Effort

  // ---- what a step needs, and what it certainly leaves behind ----

  /** Every root of every template in the arguments, at any depth. */
  function DeepReads(args: seq<Arg>): set<string> {
    if args == [] then {}
    else
      (match args[0]
       case Templated(p) => Roots(p)
       case Container(inner) => DeepReads(inner)
       case Literal(_) => {})
      + DeepReads(args[1..])
  }

  function ConditionNeeds(c: Option<Condition>): set<string> {
    if c.None? then {} else FreeNames(c.value.expr) - FUNCS
  }

  /** What is certainly in state after the step succeeds. A step that may be
      skipped, and the body of a loop that may not turn, promise nothing. */
  function Defines(step: Step): set<string>
    decreases step, 1
  {
    if step.head.skipIf.Some? then {}
    else
      {"last"} + KeyOf(step.head) + LoopDefines(step)
  }

  function LoopDefines(step: Step): set<string>
    decreases step, 0
  {
    if !step.Loop? then {}
    else
      {"loop_results"}
      + (if step.maxLoops >= 1 then {"loop_index", "loop_iteration"} + PlanDefines(step.steps) else {})
  }

  function PlanDefines(plan: Plan): set<string>
    decreases plan, 0
  {
    if plan == [] then {} else Defines(plan[0]) + PlanDefines(plan[1..])
  }

  /** Every name a step uses is at hand when it is used, given `have`. */
  predicate Ready(step: Step, have: set<string>)
    decreases step, 1
  {
    && ConditionNeeds(step.head.skipIf) <= have
    && match step
       case Prompt(_, prompt, _, _, _, _) => Roots(prompt) <= have
       case Tool(_, _, args, _) => DeepReads(args) <= have
       case Loop(_, steps, _, until, untilPrompt, _) =>
         var inside := have + {"loop_index", "loop_iteration", "loop_results"};
         && PlanReady(steps, inside)
         && ConditionNeeds(until) <= inside + PlanDefines(steps)
         && PatternReads(untilPrompt) <= inside + PlanDefines(steps)
  }

  predicate PlanReady(plan: Plan, have: set<string>)
    decreases plan, 0
  {
    plan == [] || (Ready(plan[0], have) && PlanReady(plan[1..], have + Defines(plan[0])))
  }

  /** Supplying the required inputs is enough for every step. */
  predicate DefineBeforeUse(plan: Plan) {
    PlanReady(plan, RequiredInputs(plan) + {"question"})
  }

  // ---- ready plans never miss a root ----

  /** Not a missing root: a path whose root is in the state the run ended in, or
      a failure of another kind. */
  predicate NotMissing(f: Failure, s: State) {
    && (f.Unresolved? ==> f.path[0] in s)
    && (f.BadCondition? ==> !f.fault.UnknownName?)
  }

  predicate Fine<T>(w: World, r: Res<T>) {
    r.Err? ==> NotMissing(r.error, w.state)
  }

  ghost predicate Has(w: World, names: set<string>) {
    names <= w.state.Keys
  }

  lemma HoldsFine(env: Env, c: Condition, w: World)
    requires Operational(env.py) && Has(w, FreeNames(c.expr) - FUNCS)
    ensures Fine(w, Holds(env, c, w.state))
  {
    UnknownIsFree(c.expr, w.state, env.py);
  }

  lemma {:induction false} RenderArgsFine(args: seq<Arg>, env: Env, state: State)
    requires DeepReads(args) <= state.Keys
    ensures var r := RenderArgs(args, env, state); r.Some? ==> r.value[0] in state
    decreases args
  {
    if args != [] {
      match args[0] {
        case Templated(p) => PresentRootsFailDeeper(p, state, env.show, env.attrs);
        case Container(inner) => RenderArgsFine(inner, env, state);
        case Literal(_) =>
      }
      RenderArgsFine(args[1..], env, state);
    }
  }

  lemma AskFine(env: Env, kind: SpanKind, attempts: int, w: World)
    ensures var (w', r) := Ask(env, kind, attempts, w); Fine(w', r)
  {
    hide Enter, Leave, Fetch, SetCost;
  }

  /** The model and its calls never raise an error of this kind. */
  lemma {:induction false} TurnsFine(env: Env, turns: nat, last: Option<Completion>, w: World)
    ensures var (w', r) := Turns(env, turns, last, w); r.Err? ==> !r.error.Unresolved? && !r.error.BadCondition?
    decreases turns
  {
    hide Straggles, Drains, Spawns;
    if turns > 0 {
      var (w1, c) := Ask(env, ModelSpan, env.maxAttempts, w);
      if c.Ok? && c.value.calls != [] {
        var (w2, b) := Batch(env, w1, c.value.calls, env.reply(w.asked));
        if b.Ok? { TurnsFine(env, turns - 1, Some(c.value), w2); }
      }
    }
  }

  lemma PromptFine(env: Env, step: Step, w: World)
    requires step.Prompt? && Has(w, Roots(step.prompt))
    ensures var (w', r) := RunPrompt(env, step, w); Fine(w', r)
  {
    hide Ask, Turns, Render, Roots;
    PresentRootsFailDeeper(step.prompt, w.state, env.show, env.attrs);
    AskFine(env, ModelSpan, 1, w);
    TurnsFine(env, AtLeast0(step.maxToolIterations + 1), None, w);
  }

  lemma ToolFine(env: Env, step: Step, w: World)
    requires step.Tool? && Has(w, DeepReads(step.args))
    ensures var (w', r) := RunTool(env, step, w); Fine(w', r)
  {
    hide Enter, Leave, SetCost, RenderArgs;
    RenderArgsFine(step.args, env, w.state);
  }

  lemma StopFine(env: Env, step: Step, w: World)
    requires step.Loop? && Operational(env.py)
    requires Has(w, ConditionNeeds(step.until) + PatternReads(step.untilPrompt))
    ensures var (w', r) := ShouldStop(env, step, w); Fine(w', r)
  {
    hide Ask, Enter, Leave, Render, Holds, Roots;
    if step.until.Some? { HoldsFine(env, step.until.value, w); }
    if step.untilPrompt.Some? {
      PresentRootsFailDeeper(step.untilPrompt.value, w.state, env.show, env.attrs);
      AskFine(env, StopCheckSpan, env.maxAttempts, w);
    }
  }

  lemma {:induction false} IterationsFine(
    env: Env, step: Step, index: nat, results: seq<Value>, w: World, inside: set<string>)
    requires step.Loop? && Operational(env.py)
    requires Has(w, inside - {"loop_index", "loop_iteration"}) && {"loop_index", "loop_iteration"} <= inside
    requires PlanReady(step.steps, inside)
    requires ConditionNeeds(step.until) <= inside + PlanDefines(step.steps)
    requires PatternReads(step.untilPrompt) <= inside + PlanDefines(step.steps)
    ensures var (w', r) := Iterations(env, step, index, results, w);
            && Fine(w', r)
            && (r.Ok? && index < step.maxLoops ==> Has(w', inside + PlanDefines(step.steps)))
    decreases step, 1, step.maxLoops - index
  {
    hide ShouldStop, Enter, Leave;
    if index < step.maxLoops {
      var w1 := Puts(Puts(w, "loop_index", Num(index as real)), "loop_iteration", Num((index + 1) as real));
      var e := Enters(w1, IterationSpan);
      ExecAllFine(env, step.steps, Null, e, inside);
      ExecAllKeys(env, step.steps, Null, e);
      var (w2, r) := ExecAll(env, step.steps, Null, e);
      if r.Ok? {
        var results' := results + [r.value];
        var w3 := Puts(Leaves(w2, true), "loop_results", List(results'));
        StopFine(env, step, w3);
        StopMade(env, step, w3);
        var (w4, stop) := ShouldStop(env, step, w3);
        if stop.Ok? && !stop.value {
          IterationsFine(env, step, index + 1, results', w4, inside);
          IterationsKeys(env, step, index + 1, results', w4);
        }
      }
    }
  }

  lemma {:induction false} LoopFine(env: Env, step: Step, w: World, have: set<string>)
    requires step.Loop? && Operational(env.py) && Has(w, have) && Ready(step, have)
    ensures var (w', r) := RunLoop(env, step, w);
            Fine(w', r) && (r.Ok? ==> Has(w', LoopDefines(step)))
    decreases step, 2
  {
    hide Iterations;
    var inside := have + {"loop_index", "loop_iteration", "loop_results"};
    var w0 := Puts(w, "loop_results", List([]));
    IterationsFine(env, step, 0, [], w0, inside);
    IterationsKeys(env, step, 0, [], w0);
    var (w1, r) := Iterations(env, step, 0, [], w0);
    if r.Ok? { RestoresKeys(w.state, COUNTERS, w1.state); }
  }

  lemma {:induction false} RunStepFine(env: Env, step: Step, w: World, have: set<string>)
    requires Operational(env.py) && Has(w, have) && Ready(step, have)
    ensures var (w', r) := RunStep(env, step, w);
            Fine(w', r) && (r.Ok? ==> Has(w', LoopDefines(step)))
    decreases step, 3
  {
    hide RunPrompt, RunTool, RunLoop;
    match step
    case Prompt(_, _, _, _, _, _) => PromptFine(env, step, w);
    case Tool(_, _, _, _) => ToolFine(env, step, w);
    case Loop(_, _, _, _, _, _) => LoopFine(env, step, w, have);
  }

  lemma {:induction false} ExecFine(env: Env, step: Step, w: World, have: set<string>)
    requires Operational(env.py) && Has(w, have) && Ready(step, have)
    ensures var (w', r) := Exec(env, step, w);
            Fine(w', r) && (r.Ok? ==> Has(w', have + Defines(step)))
    decreases step, 4
  {
    hide RunStep, Holds, Enter, Leave, FreeNames, Writes, LoopDefines;
    if step.head.skipIf.Some? { HoldsFine(env, step.head.skipIf.value, w); }
    var w1 := Enters(w, if step.Loop? then LoopSpan else StepSpan);
    RunStepFine(env, step, w1, have);
    RunStepKeys(env, step, w1);
  }

  /** Whatever the outside does, the run of a plan that is ready given what state
      holds misses no root: if a path is not found, its root is in state. */
  lemma {:induction false} ExecAllFine(env: Env, plan: Plan, acc: Value, w: World, have: set<string>)
    requires Operational(env.py) && Has(w, have) && PlanReady(plan, have)
    ensures var (w', r) := ExecAll(env, plan, acc, w);
            Fine(w', r) && (r.Ok? ==> Has(w', have + PlanDefines(plan)))
    decreases plan, 0
  {
    hide Exec;
    if plan != [] {
      ExecFine(env, plan[0], w, have);
      var (w1, r) := Exec(env, plan[0], w);
      if r.Ok? { ExecAllFine(env, plan[1..], r.value, w1, have + Defines(plan[0])); }
    }
  }

  /** For a plan that defines before it uses, a caller who supplies the
      required inputs never sees a missing root, whatever the outside does. */
  lemma PreflightSound(env: Env, plan: Plan, w: World)
    requires Operational(env.py) && DefineBeforeUse(plan)
    requires Has(w, RequiredInputs(plan) + {"question"})
    ensures var (w', r) := ExecAll(env, plan, Null, w); Fine(w', r)
  {
    ExecAllFine(env, plan, Null, w, RequiredInputs(plan) + {"question"});
  }

  // ---- what the analysis does not see ----

  /** Names a plan uses that `reads` does not report. */
  function Unseen(step: Step): set<string>
    decreases step, 1
  {
    ConditionNeeds(step.head.skipIf)
    + match step
      case Prompt(_, _, _, _, _, _) => {}
      case Tool(_, _, args, _) => DeepReads(args) - ShallowReads(args)
      case Loop(_, steps, _, until, _, _) => (ConditionNeeds(until) - Mentions(until)) + PlanUnseen(steps)
  }

  function PlanUnseen(plan: Plan): set<string>
    decreases plan, 0
  {
    if plan == [] then {} else Unseen(plan[0]) + PlanUnseen(plan[1..])
  }

  lemma {:induction false} DefinesAreWrites(step: Step)
    ensures Defines(step) <= Writes(step) + RUNTIME_KEYS
    decreases step, 1
  {
    if step.Loop? { PlanDefinesAreWrites(step.steps); }
  }

  lemma {:induction false} PlanDefinesAreWrites(plan: Plan)
    ensures PlanDefines(plan) <= PlanWrites(plan) + RUNTIME_KEYS
    decreases plan, 0
  {
    if plan != [] { DefinesAreWrites(plan[0]); PlanDefinesAreWrites(plan[1..]); }
  }

  lemma {:induction false} ReadyUses(step: Step, have: set<string>)
    requires Ready(step, have)
    ensures Unseen(step) <= have + Writes(step) + RUNTIME_KEYS
    decreases step, 1
  {
    if step.Loop? {
      PlanReadyUses(step.steps, have + {"loop_index", "loop_iteration", "loop_results"});
      PlanDefinesAreWrites(step.steps);
    }
  }

  lemma {:induction false} PlanReadyUses(plan: Plan, have: set<string>)
    requires PlanReady(plan, have)
    ensures PlanUnseen(plan) <= have + PlanWrites(plan) + RUNTIME_KEYS
    decreases plan, 0
  {
    if plan != [] {
      ReadyUses(plan[0], have);
      DefinesAreWrites(plan[0]);
      PlanReadyUses(plan[1..], have + Defines(plan[0]));
    }
  }

  /** The gap: a plan can define before it uses only if each name that `reads`
      overlooks is required for another reason, written by the plan, or the
      runtime's. */
  lemma UnseenNamesBreakPreflight(plan: Plan, name: string)
    requires name in PlanUnseen(plan) && name !in RequiredInputs(plan) + PlanWrites(plan) + RUNTIME_KEYS
    requires name != "question"
    ensures !DefineBeforeUse(plan)
  {
    if DefineBeforeUse(plan) { PlanReadyUses(plan, RequiredInputs(plan) + {"question"}); }
  }

  lemma {:induction false} MissingArgumentFails(args: seq<Arg>, env: Env, state: State, name: string)
    requires name in DeepReads(args) && name !in state
    ensures RenderArgs(args, env, state).Some?
    decreases args
  {
    match args[0] {
      case Templated(p) => if name in Roots(p) { MissingRootFails(p, state, env.show, env.attrs, name); }
      case Container(inner) => if name in DeepReads(inner) { MissingArgumentFails(inner, env, state, name); }
      case Literal(_) =>
    }
    if name in DeepReads(args[1..]) { MissingArgumentFails(args[1..], env, state, name); }
  }

  /** A tool step fails on a missing name at any depth of its arguments, before
      the tool is called or anything has changed. */
  lemma MissingArgumentStopsTool(env: Env, step: Step, w: World, name: string)
    requires step.Tool? && name in DeepReads(step.args) && name !in w.state
    ensures var (w', r) := RunTool(env, step, w);
            w' == w && r.Err? && r.error.Unresolved?
  {
    MissingArgumentFails(step.args, env, w.state, name);
  }

  function Only(name: string): Pattern {
    [Hole([name])]
  }

  lemma OnlyMissing(env: Env, w: World, name: string)
    requires name !in w.state
    ensures Render(Only(name), w.state, env.show, env.attrs) == Err([name])
    ensures Roots(Only(name)) == {name}
  {
    assert Only(name)[0].path[0] == name;
  }

  lemma OneStepPlan(env: Env, step: Step, w: World)
    ensures PlanReads([step]) == Reads(step) && PlanWrites([step]) == Writes(step)
    ensures ExecAll(env, [step], Null, w) == Exec(env, step, w)
  {
    hide Exec;
    assert [step][0] == step && [step][1..] == [];
    assert PlanReads([step][1..]) == {} && PlanWrites([step][1..]) == {};
    var (w1, r) := Exec(env, step, w);
    if r.Ok? { assert ExecAll(env, [step][1..], r.value, w1) == (w1, Ok(r.value)); }
  }

  /** Nested tool arguments: nothing is required, and the run fails on the name. */
  lemma NestedArgumentGap(env: Env, w: World, tool: string, name: string)
    requires name !in w.state && !w.books.ledger.Refuses()
    ensures var plan := [Tool(Head("", None), tool, [Container([Templated(Only(name))])], false)];
            && RequiredInputs(plan) == {}
            && ExecAll(env, plan, Null, w).1 == Err(Unresolved([name]))
  {
    OnlyMissing(env, w, name);
    var inner := [Templated(Only(name))];
    var args := [Container(inner)];
    assert args[1..] == [];
    assert ShallowReads(args) == {};
    var step := Tool(Head("", None), tool, args, false);
    OneStepPlan(env, step, w);
    assert RenderArgs(inner, env, w.state) == Some([name]);
    assert RenderArgs(args, env, w.state) == Some([name]);
    var w1 := Enters(w, StepSpan);
    assert RunTool(env, step, w1).1 == Err(Unresolved([name]));
  }

  /** `skip_if`: the same, before the step even opens. */
  lemma SkipIfGap(env: Env, w: World, name: string)
    requires name !in w.state && name !in FUNCS
    ensures var plan := [Prompt(Head("", Some(Condition(Name(name), {}))), [], [], 0, false, false)];
            && RequiredInputs(plan) == {}
            && ExecAll(env, plan, Null, w) == (w, Err(BadCondition(UnknownName(name))))
  {
    var step := Prompt(Head("", Some(Condition(Name(name), {}))), [], [], 0, false, false);
    OneStepPlan(env, step, w);
    assert Roots([]) == {};
  }

  /** Names the analysis takes to be built in but no run provides. */
  lemma BuiltInGap(env: Env, w: World, name: string)
    requires name in {"state", "now"} && name !in w.state && !w.books.ledger.Refuses()
    ensures var plan := [Prompt(Head("", None), Only(name), [], 0, false, false)];
            && RequiredInputs(plan) == {}
            && ExecAll(env, plan, Null, w).1 == Err(Unresolved([name]))
  {
    OnlyMissing(env, w, name);
    var step := Prompt(Head("", None), Only(name), [], 0, false, false);
    OneStepPlan(env, step, w);
    assert RunPrompt(env, step, Enters(w, StepSpan)).1 == Err(Unresolved([name]));
  }

  /** A loop without steps whose condition names something unknown fails after
      its first pass. */
  lemma EmptyLoopFails(env: Env, step: Step, w: World, name: string)
    requires step == Loop(Head("", None), [], 1, Some(Condition(Name(name), {})), None, true)
    requires name !in w.state && name !in FUNCS + RUNTIME_KEYS
    ensures RunLoop(env, step, w).1 == Err(BadCondition(UnknownName(name)))
  {
    var w0 := Puts(w, "loop_results", List([]));
    var w1 := Puts(Puts(w0, "loop_index", Num(0 as real)), "loop_iteration", Num(1 as real));
    var e := Enters(w1, IterationSpan);
    assert ExecAll(env, step.steps, Null, e) == (e, Ok(Null));
    assert [] + [Null] == [Null];
    var w3 := Puts(Leaves(e, true), "loop_results", List([Null]));
    assert ShouldStop(env, step, w3).1 == Err(BadCondition(UnknownName(name)));
    assert Iterations(env, step, 0, [], w0).1 == Err(BadCondition(UnknownName(name)));
  }

  /** `until`: nothing is required, and the first stop check fails on the name. */
  lemma UntilGap(env: Env, w: World, name: string)
    requires name !in w.state && name !in FUNCS + RUNTIME_KEYS && !w.books.ledger.Refuses()
    ensures var plan := [Loop(Head("", None), [], 1, Some(Condition(Name(name), {})), None, true)];
            && RequiredInputs(plan) == {}
            && ExecAll(env, plan, Null, w).1 == Err(BadCondition(UnknownName(name)))
  {
    hide RunLoop;
    var step := Loop(Head("", None), [], 1, Some(Condition(Name(name), {})), None, true);
    OneStepPlan(env, step, w);
    assert PlanReads(step.steps) == {};
    EmptyLoopFails(env, step, Enters(w, LoopSpan), name);
  }
}
