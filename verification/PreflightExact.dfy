/** Where the static analysis of a plan is exact: for regular plans, supplying
    the required inputs is enough against every outside if and only if the plan
    defines its names before it uses them. */
module PreflightExact {
  import opened Prelude
  import opened Costs
  import opened Trace
  import opened Books
  import opened Template
  import opened Plans
  import opened Interpreter
  import opened Effort
  import opened Preflight

  // ---- regular plans ----

  /** Every placeholder resolves once its root does, on values without keys of
      their own. */
  ghost predicate Reaches(p: Pattern, attrs: Attributes) {
    forall i, v: Value :: 0 <= i < |p| && p[i].Hole? && !v.Dict? ==> Walk(v, p[i].path[1..], attrs).Some?
  }

  /** Placeholders that are plain names do so whatever attributes values have. */
  lemma PlainNamesReach(p: Pattern, attrs: Attributes)
    requires forall i :: 0 <= i < |p| && p[i].Hole? ==> |p[i].path| == 1
    ensures Reaches(p, attrs)
  {
  }

  ghost predicate ArgsReach(args: seq<Arg>, attrs: Attributes) {
    args == [] ||
    (match args[0] {
       case Templated(p) => Reaches(p, attrs)
       case Container(inner) => ArgsReach(inner, attrs)
       case Literal(_) => true
     } && ArgsReach(args[1..], attrs))
  }

  /** Nothing in the step depends on what a value is: no condition that may skip
      it or end it, no path that may break below its root, a turn at least and a
      pass at least. */
  ghost predicate RegularStep(step: Step, attrs: Attributes)
    decreases step, 1
  {
    && step.head.skipIf.None?
    && match step
       case Prompt(_, prompt, _, n, _, _) => Reaches(prompt, attrs) && n >= 0
       case Tool(_, _, args, _) => ArgsReach(args, attrs)
       case Loop(_, steps, n, until, untilPrompt, _) =>
         && n >= 1 && until.None? && Regular(steps, attrs)
         && (untilPrompt.Some? ==> Reaches(untilPrompt.value, attrs))
  }

  ghost predicate Regular(plan: Plan, attrs: Attributes)
    decreases plan, 0
  {
    plan == [] || (RegularStep(plan[0], attrs) && Regular(plan[1..], attrs))
  }

  function StepTools(step: Step): set<string>
    decreases step, 1
  {
    match step
    case Prompt(_, _, _, _, _, _) => {}
    case Tool(_, tool, _, _) => {tool}
    case Loop(_, steps, _, _, _, _) => PlanTools(steps)
  }

  function PlanTools(plan: Plan): set<string>
    decreases plan, 0
  {
    if plan == [] then {} else StepTools(plan[0]) + PlanTools(plan[1..])
  }

  // ---- an outside that never stands in the way ----

  function Nothing(): Value { Text("") }

  /** Answers at once, for nothing, with a text, and never asks to stop. */
  function Willingly(n: nat): Reply {
    Reply(FromCache(Completion(Cost(0.0, true), "", Some(Nothing()), [], [])),
          ToolAnswer(true, None, Nothing(), ""), (k: nat) => 0, 0)
  }

  function Agreeing(): Python {
    Python((o, a, b) => Ok(Null), (o, a, b) => Ok(true), a => Ok(a), a => Ok(a), a => Ok(a),
           (a, n) => Ok(a), (a, b) => Ok(a), (f, xs, ys) => Ok(Null), (xs, ys) => Ok(Null))
  }

  function Willing(tools: set<string>, attrs: Attributes): Env {
    Env(Willingly, tools, false, 1, Agreeing(), v => "", attrs)
  }

  /** Values without keys of their own. */
  predicate Flat(s: State) {
    forall k :: k in s ==> !s[k].Dict?
  }

  /** Nothing that could stop a run but a name that is not there. */
  predicate Ample(w: World) {
    Flat(w.state) && w.books.ledger.maxUsd.None? && w.books.ledger.maxCalls.None?
  }

  lemma RenderWilling(p: Pattern, state: State, show: Value -> string, attrs: Attributes)
    requires Reaches(p, attrs) && Flat(state)
    ensures var r := Render(p, state, show, attrs);
            && (Roots(p) <= state.Keys <==> r.Ok?)
            && (r.Err? ==> r.error[0] !in state)
  {
    if !(Roots(p) <= state.Keys) {
      var root :| root in Roots(p) && root !in state;
      MissingRootFails(p, state, show, attrs, root);
    }
    HolesWilling(p, state, show, attrs);
  }

  lemma {:induction false} HolesWilling(p: Pattern, state: State, show: Value -> string, attrs: Attributes)
    requires Reaches(p, attrs) && Flat(state)
    ensures var r := Render(p, state, show, attrs);
            r.Err? ==> r.error[0] !in state && r.error[0] in Roots(p)
  {
    if p != [] {
      forall i | 0 <= i < |p[1..]| ensures p[1..][i] == p[i + 1] {
      }
      assert Roots(p[1..]) <= Roots(p) by {
        forall x | x in Roots(p[1..]) ensures x in Roots(p) {
          var i :| 0 <= i < |p[1..]| && p[1..][i].Hole? && p[1..][i].path[0] == x;
          assert p[i + 1].path[0] == x;
        }
      }
      HolesWilling(p[1..], state, show, attrs);
      if p[0].Hole? {
        var path := p[0].path;
        assert path[0] in Roots(p);
        if path[0] in state {
          assert Find(path, state, attrs) == Walk(state[path[0]], path[1..], attrs);
          assert Walk(state[path[0]], p[0].path[1..], attrs).Some?;
        }
      }
    }
  }

  lemma {:induction false} ArgsWilling(args: seq<Arg>, tools: set<string>, attrs: Attributes, state: State)
    requires ArgsReach(args, attrs) && Flat(state)
    ensures var r := RenderArgs(args, Willing(tools, attrs), state);
            && (DeepReads(args) <= state.Keys <==> r.None?)
            && (r.Some? ==> r.value[0] !in state)
    decreases args
  {
    if args != [] {
      match args[0] {
        case Templated(p) => RenderWilling(p, state, Willing(tools, attrs).show, attrs);
        case Container(inner) => ArgsWilling(inner, tools, attrs, state);
        case Literal(_) =>
      }
      ArgsWilling(args[1..], tools, attrs, state);
    }
  }

  lemma AskWilling(tools: set<string>, attrs: Attributes, kind: SpanKind, w: World)
    requires Ample(w)
    ensures var (w', r) := Ask(Willing(tools, attrs), kind, 1, w);
            && Ample(w') && w'.state == w.state
            && r == Ok(Completion(Cost(0.0, true), "", Some(Nothing()), [], []))
  {
    hide Enter, Leave, SetCost, Total;
  }

  // ---- what such an outside makes of a regular plan ----

  /** All went well and state holds `more` and what it held; or a root was missing. */
  predicate Exactly<T>(ready: bool, w: World, more: set<string>, w': World, r: Res<T>) {
    if ready then r.Ok? && Ample(w') && w'.state.Keys == w.state.Keys + more
    else r.Err? && r.error.Unresolved? && r.error.path[0] !in w'.state
  }

  predicate NoDict(r: Res<Value>) {
    r.Ok? ==> !r.value.Dict?
  }

  lemma PromptWilling(tools: set<string>, attrs: Attributes, step: Step, w: World)
    requires step.Prompt? && RegularStep(step, attrs) && Ample(w)
    ensures var (w', r) := RunPrompt(Willing(tools, attrs), step, w);
            Exactly(Ready(step, w.state.Keys), w, {}, w', r) && NoDict(r)
  {
    hide Ask, Render, Reaches, Flat;
    RenderWilling(step.prompt, w.state, Willing(tools, attrs).show, attrs);
    if Roots(step.prompt) <= w.state.Keys { AskWilling(tools, attrs, ModelSpan, w); }
  }

  lemma ToolWilling(tools: set<string>, attrs: Attributes, step: Step, w: World)
    requires step.Tool? && RegularStep(step, attrs) && Ample(w) && step.tool in tools
    ensures var (w', r) := RunTool(Willing(tools, attrs), step, w);
            Exactly(Ready(step, w.state.Keys), w, {}, w', r) && NoDict(r)
  {
    hide RenderArgs, Enter, Leave, Flat;
    ArgsWilling(step.args, tools, attrs, w.state);
  }

  lemma StopWilling(tools: set<string>, attrs: Attributes, step: Step, w: World)
    requires step.Loop? && RegularStep(step, attrs) && Ample(w)
    ensures var (w', r) := ShouldStop(Willing(tools, attrs), step, w);
            Exactly(PatternReads(step.untilPrompt) <= w.state.Keys, w, {}, w', r)
            && (r.Ok? ==> !r.value)
  {
    hide Ask, Render, Enter, Leave, Reaches, Flat, Roots;
    if step.untilPrompt.Some? {
      RenderWilling(step.untilPrompt.value, w.state, Willing(tools, attrs).show, attrs);
      AskWilling(tools, attrs, StopCheckSpan, w);
    }
  }

  lemma {:induction false} ReadyGrows(step: Step, have: set<string>, more: set<string>)
    requires Ready(step, have) && have <= more
    ensures Ready(step, more)
    decreases step, 1
  {
    if step.Loop? {
      PlanReadyGrows(step.steps, have + {"loop_index", "loop_iteration", "loop_results"},
                     more + {"loop_index", "loop_iteration", "loop_results"});
    }
  }

  lemma {:induction false} PlanReadyGrows(plan: Plan, have: set<string>, more: set<string>)
    requires PlanReady(plan, have) && have <= more
    ensures PlanReady(plan, more)
    decreases plan, 0
  {
    if plan != [] {
      ReadyGrows(plan[0], have, more);
      PlanReadyGrows(plan[1..], have + Defines(plan[0]), more + Defines(plan[0]));
    }
  }

  predicate NoDicts(vs: seq<Value>) {
    forall i :: 0 <= i < |vs| ==> !vs[i].Dict?
  }

  /** A pass over the body, and the question after it, find what they need. */
  predicate PassReady(step: Step, inside: set<string>)
    requires step.Loop?
  {
    PlanReady(step.steps, inside) && PatternReads(step.untilPrompt) <= inside + PlanDefines(step.steps)
  }

  function PassDefines(step: Step): set<string>
    requires step.Loop?
  {
    {"loop_index", "loop_iteration", "loop_results"} + PlanDefines(step.steps)
  }

  lemma {:induction false} IterationsWilling(
    tools: set<string>, attrs: Attributes, step: Step, index: nat, results: seq<Value>, w: World)
    requires step.Loop? && RegularStep(step, attrs) && StepTools(step) <= tools && Ample(w) && NoDicts(results)
    requires index < step.maxLoops && "loop_results" in w.state
    ensures var (w', r) := Iterations(Willing(tools, attrs), step, index, results, w);
            && Exactly(PassReady(step, w.state.Keys + {"loop_index", "loop_iteration"}), w, PassDefines(step), w', r)
            && (r.Ok? ==> NoDicts(r.value))
    decreases step, 1, step.maxLoops - index
  {
    hide ShouldStop, Enter, Leave, Willing, Ready, PlanReady, PlanDefines;
    var env := Willing(tools, attrs);
    var inside := w.state.Keys + {"loop_index", "loop_iteration"};
    var w1 := Puts(Puts(w, "loop_index", Num(index as real)), "loop_iteration", Num((index + 1) as real));
    var e := Enters(w1, IterationSpan);
    assert e.state.Keys == inside;
    ExecAllWilling(tools, attrs, step.steps, Null, e);
    var (w2, r) := ExecAll(env, step.steps, Null, e);
    if PlanReady(step.steps, inside) {
      var results' := results + [r.value];
      var w3 := Puts(Leaves(w2, true), "loop_results", List(results'));
      assert w3.state.Keys == inside + PlanDefines(step.steps);
      StopWilling(tools, attrs, step, w3);
      var (w4, stop) := ShouldStop(env, step, w3);
      if stop.Ok? && index + 1 < step.maxLoops {
        PassReadyGrows(step, inside, w4.state.Keys + {"loop_index", "loop_iteration"});
        IterationsWilling(tools, attrs, step, index + 1, results', w4);
      }
    }
  }

  lemma PassReadyGrows(step: Step, have: set<string>, more: set<string>)
    requires step.Loop? && PassReady(step, have) && have <= more
    ensures PassReady(step, more)
  {
    PlanReadyGrows(step.steps, have, more);
  }

  lemma {:induction false} RestoresFlat(before: State, keys: seq<string>, s: State)
    requires Flat(before) && Flat(s)
    ensures Flat(Restores(before, keys, s))
  {
    if keys != [] {
      var k := keys[0];
      RestoresFlat(before, keys[1..], if k in before && before[k] != Null then s[k := before[k]] else s);
    }
  }

  lemma {:induction false} LoopWilling(tools: set<string>, attrs: Attributes, step: Step, w: World)
    requires step.Loop? && RegularStep(step, attrs) && StepTools(step) <= tools && Ample(w)
    ensures var (w', r) := RunLoop(Willing(tools, attrs), step, w);
            Exactly(Ready(step, w.state.Keys), w, LoopDefines(step), w', r) && NoDict(r)
    decreases step, 2
  {
    hide Iterations, Willing, PlanReady, PlanDefines, Regular;
    var w0 := Puts(w, "loop_results", List([]));
    IterationsWilling(tools, attrs, step, 0, [], w0);
    assert w0.state.Keys + {"loop_index", "loop_iteration"}
           == w.state.Keys + {"loop_index", "loop_iteration", "loop_results"};
    var (w1, r) := Iterations(Willing(tools, attrs), step, 0, [], w0);
    if r.Ok? {
      RestoresKeys(w.state, COUNTERS, w1.state);
      RestoresFlat(w.state, COUNTERS, w1.state);
    }
  }

  lemma {:induction false} RunStepWilling(tools: set<string>, attrs: Attributes, step: Step, w: World)
    requires RegularStep(step, attrs) && StepTools(step) <= tools && Ample(w)
    ensures var (w', r) := RunStep(Willing(tools, attrs), step, w);
            Exactly(Ready(step, w.state.Keys), w, LoopDefines(step), w', r) && NoDict(r)
    decreases step, 3
  {
    hide RunPrompt, RunTool, RunLoop, Willing, Exactly, Ready;
    match step
    case Prompt(_, _, _, _, _, _) => PromptWilling(tools, attrs, step, w);
    case Tool(_, _, _, _) => ToolWilling(tools, attrs, step, w);
    case Loop(_, _, _, _, _, _) => LoopWilling(tools, attrs, step, w);
  }

  lemma {:induction false} ExecWilling(tools: set<string>, attrs: Attributes, step: Step, w: World)
    requires RegularStep(step, attrs) && StepTools(step) <= tools && Ample(w)
    ensures var (w', r) := Exec(Willing(tools, attrs), step, w);
            Exactly(Ready(step, w.state.Keys), w, Defines(step), w', r) && NoDict(r)
    decreases step, 4
  {
    hide RunStep, Enter, Leave, Willing, Ready, LoopDefines, StepTools;
    RunStepWilling(tools, attrs, step, Enters(w, if step.Loop? then LoopSpan else StepSpan));
  }

  /** Against the willing outside a regular plan ends well exactly if it is
      ready given what state holds, and then leaves exactly what it defines;
      otherwise it fails on a root that is not in state. */
  lemma {:induction false} ExecAllWilling(tools: set<string>, attrs: Attributes, plan: Plan, acc: Value, w: World)
    requires Regular(plan, attrs) && PlanTools(plan) <= tools && Ample(w) && !acc.Dict?
    ensures var (w', r) := ExecAll(Willing(tools, attrs), plan, acc, w);
            Exactly(PlanReady(plan, w.state.Keys), w, PlanDefines(plan), w', r) && NoDict(r)
    decreases plan, 0
  {
    hide Exec, Willing, Ready, Defines;
    if plan != [] {
      ExecWilling(tools, attrs, plan[0], w);
      var (w1, r) := Exec(Willing(tools, attrs), plan[0], w);
      if r.Ok? { ExecAllWilling(tools, attrs, plan[1..], r.value, w1); }
    }
  }

  // ---- the analysis is exact ----

  /** No outside with these attributes can make the plan miss a root if the
      caller supplies what the analysis says is required. */
  ghost predicate NeverMisses(plan: Plan, attrs: Attributes) {
    forall env: Env, w: World ::
      env.attrs == attrs && Operational(env.py) && Has(w, RequiredInputs(plan) + {"question"}) ==>
        var (w', r) := ExecAll(env, plan, Null, w); Fine(w', r)
  }

  /** For a regular plan that is so if and only if it defines before it uses. */
  lemma PreflightIff(plan: Plan, attrs: Attributes)
    requires Regular(plan, attrs)
    ensures DefineBeforeUse(plan) <==> NeverMisses(plan, attrs)
  {
    hide ExecAll, PlanReady, Operational;
    if DefineBeforeUse(plan) {
      forall env: Env, w: World | Operational(env.py) && Has(w, RequiredInputs(plan) + {"question"})
        ensures var (w', r) := ExecAll(env, plan, Null, w); Fine(w', r)
      {
        PreflightSound(env, plan, w);
      }
    } else {
      var tools := PlanTools(plan);
      var env := Willing(tools, attrs);
      var w := Supplied(RequiredInputs(plan) + {"question"});
      AgreeingIsOperational();
      assert w.state.Keys == RequiredInputs(plan) + {"question"};
      ExecAllWilling(tools, attrs, plan, Null, w);
      var (w', r) := ExecAll(env, plan, Null, w);
      assert !Fine(w', r);
    }
  }

  lemma AgreeingIsOperational()
    ensures Operational(Agreeing())
  {
  }

  /** A run about to begin with exactly these names in state. */
  function Supplied(names: set<string>): World {
    World(map n | n in names :: Nothing(),
          Books(NewTrace(), Ledger(None, None, 0.0, false, []), []), 0, 0, 0, [])
  }

  /** So a name in nested arguments of a tool that nothing else requires or
      writes is missed by the analysis and by some run. */
  lemma UnseenNameIsMissed(plan: Plan, attrs: Attributes, name: string)
    requires Regular(plan, attrs)
    requires name in PlanUnseen(plan) && name !in RequiredInputs(plan) + PlanWrites(plan) + RUNTIME_KEYS
    requires name != "question"
    ensures !NeverMisses(plan, attrs)
  {
    UnseenNamesBreakPreflight(plan, name);
    PreflightIff(plan, attrs);
  }
}
