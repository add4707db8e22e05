/** Why and when a run stops: what a budget error means, what a turn of
    concurrent calls does whatever order they return in, and what a step that
    succeeded leaves behind. */
module Stopping {
  import opened Prelude
  import opened Costs
  import opened Trace
  import opened Books
  import opened Template
  import opened Plans
  import opened Interpreter
  import opened Conservation
  import opened Spending
  import opened Effort

  // ---- a budget error is a ledger that refuses ----

  /** A budget error is raised only by a ledger that refuses any further step. */
  predicate Honest<T>(w: World, r: Res<T>) {
    r.Err? && r.error == OverBudget ==> w.books.ledger.Refuses()
  }

  lemma LandKeepsTrip(w: World, s: Straggler)
    requires Tripped(w.books.ledger) && ChargesNothingBack(s.answer.cost)
    ensures Tripped(Lands(w, s).0.books.ledger)
  {
    LandsSpends(w, s);
  }

  lemma {:induction false} StragglesKeepTrip(w: World, n: nat, picks: nat -> nat)
    requires Tripped(w.books.ledger)
    requires forall i :: 0 <= i < |w.stragglers| ==> ChargesNothingBack(w.stragglers[i].answer.cost)
    ensures Tripped(Straggles(w, n, picks).books.ledger)
    decreases n
  {
    hide Lands;
    if n > 0 && w.stragglers != [] {
      var i := picks(|w.stragglers|) % |w.stragglers|;
      LandKeepsTrip(w, w.stragglers[i]);
      StragglesKeepTrip(Lands(w, w.stragglers[i]).0.(stragglers := Without(w.stragglers, i)), n - 1, picks);
    }
  }

  lemma {:induction false} DrainRaisesTripped(w: World, inAir: seq<Straggler>, picks: nat -> nat)
    ensures var (w', raised) := Drains(w, inAir, picks); raised ==> Tripped(w'.books.ledger)
    decreases |inAir|
  {
    if inAir != [] {
      var i := picks(|inAir|) % |inAir|;
      var (w1, raised) := Lands(w, inAir[i]);
      if !raised { DrainRaisesTripped(w1, Without(inAir, i), picks); }
    }
  }

  lemma BatchHonest(env: Env, w: World, calls: seq<Request>, reply: Reply)
    requires Steady(w)
    requires forall i :: 0 <= i < |calls| ==> ChargesNothingBack(calls[i].answer.cost)
    ensures var (w', r) := Batch(env, w, calls, reply); Honest(w', r)
  {
    hide Moves, Tripped, Straggles;
    var (w1, inAir) := Spawns(w, env.tools, calls);
    SpawnsMoves(w, env.tools, calls, []) by { assert InAir([], w.books.trace); SteadyHere(w); }
    assert [] + inAir == inAir;
    if AllKnown(env.tools, calls) {
      AirOf(w.books, [], w1.books, inAir);
      SteadyHere(w);
      DrainsMoves(w1, inAir, reply.picks);
      var (w2, raised) := Drains(w1, inAir, reply.picks);
      AirOf(w1.books, inAir, w2.books, w2.stragglers);
      DrainRaisesTripped(w1, inAir, reply.picks);
      if raised {
        StragglesKeepTrip(w2, reply.landing, reply.picks);
        TrippedRefuses(Straggles(w2, reply.landing, reply.picks).books.ledger);
      }
    }
  }

  lemma TrippedRefuses(l: Ledger)
    requires Tripped(l)
    ensures l.Refuses()
  {
  }

  lemma AirOf(b: Books, ss: seq<Straggler>, b': Books, ss': seq<Straggler>)
    requires Moves(b, ss, b', ss')
    ensures InAir(ss', b'.trace)
    ensures forall i :: 0 <= i < |ss'| ==> ChargesNothingBack(ss'[i].answer.cost)
  {
  }

  lemma AskHonest(env: Env, kind: SpanKind, attempts: int, w: World)
    ensures var (w', r) := Ask(env, kind, attempts, w); Honest(w', r)
  {
    hide Enter, Leave, Fetch, SetCost, Total;
  }

  lemma {:induction false} TurnsHonest(env: Env, turns: nat, last: Option<Completion>, w: World)
    requires EnvOk(env) && Steady(w)
    ensures var (w', r) := Turns(env, turns, last, w); Honest(w', r)
    decreases turns
  {
    hide Ask, Batch, Moves, Steady;
    if turns > 0 {
      AskHonest(env, ModelSpan, env.maxAttempts, w);
      AskProgress(env, ModelSpan, env.maxAttempts, w);
      var (w1, c) := Ask(env, ModelSpan, env.maxAttempts, w);
      if c.Ok? && c.value.calls != [] {
        ProgressSteady(w, w1);
        BatchHonest(env, w1, c.value.calls, env.reply(w.asked));
        TurnProgress(env, w);
        var (w2, b) := Batch(env, w1, c.value.calls, env.reply(w.asked));
        if b.Ok? {
          ProgressSteady(w, w2);
          TurnsHonest(env, turns - 1, Some(c.value), w2);
        }
      }
    }
  }

  lemma PromptHonest(env: Env, step: Step, w: World)
    requires step.Prompt? && EnvOk(env) && Steady(w)
    ensures var (w', r) := RunPrompt(env, step, w); Honest(w', r)
  {
    hide Ask, Turns, Render, Steady, EnvOk;
    AskHonest(env, ModelSpan, 1, w);
    TurnsHonest(env, AtLeast0(step.maxToolIterations + 1), None, w);
  }

  lemma ToolHonest(env: Env, step: Step, w: World)
    requires step.Tool?
    ensures var (w', r) := RunTool(env, step, w); Honest(w', r)
  {
    hide Enter, Leave, RenderArgs, SetCost, Total;
  }

  lemma StopHonest(env: Env, step: Step, w: World)
    requires step.Loop?
    ensures var (w', r) := ShouldStop(env, step, w); Honest(w', r)
  {
    hide Ask, Render, Enter, Leave;
    AskHonest(env, StopCheckSpan, env.maxAttempts, w);
  }

  lemma {:induction false} IterationsHonest(env: Env, step: Step, index: nat, results: seq<Value>, w: World)
    requires step.Loop? && EnvOk(env) && Steady(w)
    ensures var (w', r) := Iterations(env, step, index, results, w); Honest(w', r)
    decreases step, 1, step.maxLoops - index
  {
    hide Moves, ShouldStop, Enter, Leave;
    if index < step.maxLoops {
      var w1 := Puts(Puts(w, "loop_index", Num(index as real)), "loop_iteration", Num((index + 1) as real));
      var e := Enters(w1, IterationSpan);
      EntersSteady(w1, IterationSpan);
      ExecAllHonest(env, step.steps, Null, e);
      ExecAllProgress(env, step.steps, Null, e);
      var (w2, r) := ExecAll(env, step.steps, Null, e);
      Bracketed(w1, IterationSpan, w2, r.Ok?);
      if r.Ok? {
        var results' := results + [r.value];
        var w3 := Puts(Leaves(w2, true), "loop_results", List(results'));
        ProgressElse(w, w3, true, w3, true);
        ProgressSteady(w, w3);
        StopHonest(env, step, w3);
        StopProgress(env, step, w3);
        var (w4, stop) := ShouldStop(env, step, w3);
        if stop.Ok? && !stop.value {
          ProgressSteady(w3, w4);
          IterationsHonest(env, step, index + 1, results', w4);
        }
      }
    }
  }

  lemma {:induction false} RunStepHonest(env: Env, step: Step, w: World)
    requires EnvOk(env) && Steady(w)
    ensures var (w', r) := RunStep(env, step, w); Honest(w', r)
    decreases step, 3
  {
    hide RunPrompt, RunTool, Moves, Iterations, Restores;
    match step
    case Prompt(_, _, _, _, _, _) => PromptHonest(env, step, w);
    case Tool(_, _, _, _) => ToolHonest(env, step, w);
    case Loop(_, _, _, _, _, _) => IterationsHonest(env, step, 0, [], Puts(w, "loop_results", List([])));
  }

  lemma {:induction false} ExecHonest(env: Env, step: Step, w: World)
    requires EnvOk(env) && Steady(w)
    ensures var (w', r) := Exec(env, step, w); Honest(w', r)
    decreases step, 4
  {
    hide RunStep, Moves, Enter, Leave, Eval;
    var skip := if step.head.skipIf.None? then Ok(false) else Holds(env, step.head.skipIf.value, w.state);
    if skip.Ok? && !skip.value && !w.books.ledger.Refuses() {
      var kind := if step.Loop? then LoopSpan else StepSpan;
      EntersSteady(w, kind);
      RunStepHonest(env, step, Enters(w, kind));
    }
  }

  /** When a plan ends with a budget error, the ledger refuses: the calls or the
      money are used up, also after calls still in the air have landed. */
  lemma {:induction false} ExecAllHonest(env: Env, plan: Plan, acc: Value, w: World)
    requires EnvOk(env) && Steady(w)
    ensures var (w', r) := ExecAll(env, plan, acc, w); Honest(w', r)
    decreases plan, 0
  {
    hide Exec, Moves;
    if plan != [] {
      ExecHonest(env, plan[0], w);
      ExecProgress(env, plan[0], w);
      var (w1, r) := Exec(env, plan[0], w);
      if r.Ok? {
        ProgressSteady(w, w1);
        ExecAllHonest(env, plan[1..], r.value, w1);
      }
    }
  }

  /** A step that is not skipped is refused, and then changes nothing, exactly
      while the calls or the money are used up. */
  lemma StepRefusedIff(env: Env, step: Step, w: World)
    requires EnvOk(env) && Steady(w)
    requires step.head.skipIf.Some? ==> Holds(env, step.head.skipIf.value, w.state) == Ok(false)
    ensures var l := w.books.ledger;
            Exec(env, step, w) == (w, Err(OverBudget)) <==>
              || (l.maxCalls.Some? && |l.records| >= l.maxCalls.value)
              || (l.maxUsd.Some? && l.Spent() >= l.maxUsd.value + if l.reserveOpen then l.reserveUsd else 0.0)
  {
    hide RunStep, Moves, Enter, Leave, Holds;
    if !w.books.ledger.Refuses() {
      var kind := if step.Loop? then LoopSpan else StepSpan;
      EntersSteady(w, kind);
      RunStepProgress(env, step, Enters(w, kind));
      LogGrows(Enters(w, kind), RunStep(env, step, Enters(w, kind)).0);
    }
  }

  lemma LogGrows(w: World, w': World)
    requires Moves(w.books, [], w'.books, w'.stragglers)
    ensures |w.books.log| <= |w'.books.log|
  {
  }

  // ---- the order of concurrent calls ----

  predicate AnyBillable(ss: seq<Straggler>) {
    exists i :: 0 <= i < |ss| && Billable(ss[i].answer.cost)
  }

  lemma BillableWithout(ss: seq<Straggler>, i: nat)
    requires i < |ss|
    ensures AnyBillable(ss) <==> Billable(ss[i].answer.cost) || AnyBillable(Without(ss, i))
  {
    var r := Without(ss, i);
    forall k | 0 <= k < |ss| && k != i && Billable(ss[k].answer.cost) ensures AnyBillable(r) {
      assert r[if k < i then k else k - 1] == ss[k];
    }
    forall k | 0 <= k < |r| && Billable(r[k].answer.cost) ensures AnyBillable(ss) {
      assert r[k] == ss[if k < i then k else k + 1];
    }
  }

  lemma {:induction false} NothingOutstanding(ss: seq<Straggler>)
    requires !AnyBillable(ss)
    ensures Outstanding(ss) == 0.0
  {
    if ss != [] {
      assert !Billable(ss[0].answer.cost);
      forall k | 0 <= k < |ss[1..]| ensures !Billable(ss[1..][k].answer.cost) {
        assert ss[1..][k] == ss[k + 1];
      }
      NothingOutstanding(ss[1..]);
    }
  }

  lemma {:induction false} OutstandingNotNegative(ss: seq<Straggler>)
    requires forall i :: 0 <= i < |ss| ==> ChargesNothingBack(ss[i].answer.cost)
    ensures Outstanding(ss) >= 0.0
  {
    if ss != [] {
      forall k | 0 <= k < |ss[1..]| ensures ChargesNothingBack(ss[1..][k].answer.cost) {
        assert ss[1..][k] == ss[k + 1];
      }
      OutstandingNotNegative(ss[1..]);
    }
  }

  predicate TripsTogether(w: World, inAir: seq<Straggler>) {
    var limit := w.books.ledger.Limit();
    limit.Some? && AnyBillable(inAir) && w.books.ledger.Spent() + Outstanding(inAir) > limit.value
  }

  lemma LandsOver(w: World, s: Straggler)
    ensures var (w1, raised) := Lands(w, s);
            && w1.books.ledger.Limit() == w.books.ledger.Limit()
            && (raised <==> Billable(s.answer.cost) && w1.books.ledger.Over())
  {
    hide Settle, SetCost, Total;
  }

  /** Whether the calls of a turn cross the ceiling depends on what they cost
      together and not on the order in which they return. */
  lemma {:induction false} TripIgnoresOrder(w: World, inAir: seq<Straggler>, picks: nat -> nat)
    requires forall i :: 0 <= i < |inAir| ==> ChargesNothingBack(inAir[i].answer.cost)
    ensures Drains(w, inAir, picks).1 <==> TripsTogether(w, inAir)
    decreases |inAir|
  {
    hide Lands, Outstanding, Total;
    if inAir != [] {
      var i := picks(|inAir|) % |inAir|;
      var s, rest := inAir[i], Without(inAir, i);
      var (w1, raised) := Lands(w, s);
      LandsSpends(w, s);
      LandsOver(w, s);
      OutstandingWithout(inAir, i);
      BillableWithout(inAir, i);
      forall k | 0 <= k < |rest| ensures ChargesNothingBack(rest[k].answer.cost) {
        assert rest[k] == inAir[if k < i then k else k + 1];
      }
      OutstandingNotNegative(rest);
      if !raised {
        TripIgnoresOrder(w1, rest, picks);
        if !AnyBillable(rest) { NothingOutstanding(rest); }
      }
    }
  }

  /** And if they do not, the ledger ends with the same total in every order. */
  lemma TotalIgnoresOrder(w: World, inAir: seq<Straggler>, picks: nat -> nat)
    requires w.stragglers == [] && !Drains(w, inAir, picks).1
    ensures Drains(w, inAir, picks).0.books.ledger.Spent() == w.books.ledger.Spent() + Outstanding(inAir)
  {
    DrainsSpends(w, inAir, picks);
    DrainsLeavesNone(w, inAir, picks);
  }

  lemma {:induction false} DrainsLeavesNone(w: World, inAir: seq<Straggler>, picks: nat -> nat)
    requires !Drains(w, inAir, picks).1
    ensures Drains(w, inAir, picks).0.stragglers == w.stragglers
    decreases |inAir|
  {
    if inAir != [] {
      var i := picks(|inAir|) % |inAir|;
      DrainsLeavesNone(Lands(w, inAir[i]).0, Without(inAir, i), picks);
    }
  }

  // ---- what a run answers ----

  /** What a step that ended well hands on is under "last", a skipped one's too. */
  lemma StepAnswerIsLast(env: Env, step: Step, w: World)
    ensures var (w', r) := Exec(env, step, w);
            r.Ok? ==> r.value == if "last" in w'.state then w'.state["last"] else Null
  {
    hide RunStep, Holds, Enter, Leave;
  }

  lemma {:induction false} PlanAnswerIsLast(env: Env, plan: Plan, acc: Value, w: World)
    requires plan != []
    ensures var (w', r) := ExecAll(env, plan, acc, w);
            r.Ok? ==> r.value == if "last" in w'.state then w'.state["last"] else Null
    decreases plan
  {
    hide Exec;
    StepAnswerIsLast(env, plan[0], w);
    var (w1, r) := Exec(env, plan[0], w);
    if r.Ok? {
      if plan[1..] == [] {
        assert ExecAll(env, plan[1..], r.value, w1) == (w1, Ok(r.value));
      } else {
        PlanAnswerIsLast(env, plan[1..], r.value, w1);
      }
    }
  }

  // ---- how a tool loop and a loop of steps end ----

  /** A prompt ends with an answer that asks for nothing more, or with its turns
      used up: only then may calls of the last answer stay without a reply. */
  lemma {:induction false} ToolLoopEnds(env: Env, turns: nat, last: Option<Completion>, w: World)
    ensures var (w', c) := Turns(env, turns, last, w);
            && (c.Ok? && c.value.calls != [] ==> w'.completions == w.completions + turns)
            && (c.Err? && c.error == NoCompletion ==> turns == 0 && last.None?)
    decreases turns
  {
    hide Ask, Batch;
    if turns > 0 {
      AskMade(env, ModelSpan, env.maxAttempts, w);
      AskErrors(env, ModelSpan, env.maxAttempts, w);
      var (w1, c) := Ask(env, ModelSpan, env.maxAttempts, w);
      if c.Ok? && c.value.calls != [] {
        BatchElse(env, w1, c.value.calls, env.reply(w.asked));
        BatchErrors(env, w1, c.value.calls, env.reply(w.asked));
        var (w2, b) := Batch(env, w1, c.value.calls, env.reply(w.asked));
        if b.Ok? { ToolLoopEnds(env, turns - 1, Some(c.value), w2); }
      }
    }
  }

  lemma AskErrors(env: Env, kind: SpanKind, attempts: int, w: World)
    ensures var r := Ask(env, kind, attempts, w).1; r.Err? ==> r.error in {Provider, OverBudget}
  {
  }

  lemma BatchErrors(env: Env, w: World, calls: seq<Request>, reply: Reply)
    ensures var r := Batch(env, w, calls, reply).1; r.Err? ==> r.error in {UnknownTool, OverBudget}
  {
    hide Spawns, Drains, Straggles;
  }

  /** A loop keeps one result for each pass, in order, makes no more passes than
      it may, and publishes the results so far after every pass. */
  lemma {:induction false} LoopKeepsResults(env: Env, step: Step, index: nat, results: seq<Value>, w: World)
    requires step.Loop? && |results| == index
    requires "loop_results" in w.state && w.state["loop_results"] == List(results)
    ensures var (w', r) := Iterations(env, step, index, results, w);
            r.Ok? ==>
              && results <= r.value
              && |r.value| <= (if step.maxLoops >= index then step.maxLoops else index)
              && (step.until.None? && step.untilPrompt.None? && step.maxLoops >= index ==> |r.value| == step.maxLoops)
              && "loop_results" in w'.state && w'.state["loop_results"] == List(r.value)
    decreases step.maxLoops - index
  {
    hide ExecAll, Enter, Leave;
    if index < step.maxLoops {
      var w1 := Puts(Puts(w, "loop_index", Num(index as real)), "loop_iteration", Num((index + 1) as real));
      var (w2, r) := ExecAll(env, step.steps, Null, Enters(w1, IterationSpan));
      if r.Ok? {
        var results' := results + [r.value];
        var w3 := Puts(Leaves(w2, true), "loop_results", List(results'));
        StopMade(env, step, w3);
        var (w4, stop) := ShouldStop(env, step, w3);
        if stop.Ok? && !stop.value { LoopKeepsResults(env, step, index + 1, results', w4); }
      }
    }
  }

  /** A loop that asks no model ends early only in a state where its condition
      holds. */
  lemma {:induction false} EarlyEndIsCondition(env: Env, step: Step, index: nat, results: seq<Value>, w: World)
    requires step.Loop? && |results| == index && step.untilPrompt.None?
    ensures var (w', r) := Iterations(env, step, index, results, w);
            r.Ok? && |r.value| < step.maxLoops ==>
              step.until.Some? && Holds(env, step.until.value, w'.state) == Ok(true)
    decreases step.maxLoops - index
  {
    hide ExecAll, Enter, Leave, Holds;
    if index < step.maxLoops {
      var w1 := Puts(Puts(w, "loop_index", Num(index as real)), "loop_iteration", Num((index + 1) as real));
      var (w2, r) := ExecAll(env, step.steps, Null, Enters(w1, IterationSpan));
      if r.Ok? {
        var results' := results + [r.value];
        var w3 := Puts(Leaves(w2, true), "loop_results", List(results'));
        var (w4, stop) := ShouldStop(env, step, w3);
        if stop.Ok? && !stop.value { EarlyEndIsCondition(env, step, index + 1, results', w4); }
      }
    }
  }

  /** A step that does not write a counter itself gives it back as it was,
      whatever loops it runs inside. */
  lemma StepKeepsCounter(env: Env, step: Step, w: World, k: string)
    requires k in COUNTERS && k in w.state && w.state[k] != Null && k !in Writes(step)
    ensures var (w', r) := Exec(env, step, w);
            r.Ok? ==> k in w'.state && w'.state[k] == w.state[k]
  {
    hide RunPrompt, RunTool, RunLoop, Enter, Leave, Eval;
    var w1 := Enters(w, if step.Loop? then LoopSpan else StepSpan);
    match step
    case Prompt(_, _, _, _, _, _) => PromptKeepsState(env, step, w1);
    case Tool(_, _, _, _) => ToolMade(env, step, w1);
    case Loop(_, _, _, _, _, _) =>
      if RunLoop(env, step, w1).1.Ok? { NestedLoopRestores(env, step, w1, k); }
  }

  lemma PromptKeepsState(env: Env, step: Step, w: World)
    requires step.Prompt?
    ensures var w' := RunPrompt(env, step, w).0;
            forall k :: k in w.state && k != "citations" ==> k in w'.state && w'.state[k] == w.state[k]
  {
    hide Ask, Turns, Render;
    AskMade(env, ModelSpan, 1, w);
    TurnsMade(env, AtLeast0(step.maxToolIterations + 1), None, w);
  }

  lemma {:induction false} PlanKeepsCounter(env: Env, plan: Plan, acc: Value, w: World, k: string)
    requires k in COUNTERS && k in w.state && w.state[k] != Null && k !in PlanWrites(plan)
    ensures var (w', r) := ExecAll(env, plan, acc, w);
            r.Ok? ==> k in w'.state && w'.state[k] == w.state[k]
    decreases plan
  {
    hide Exec;
    if plan != [] {
      StepKeepsCounter(env, plan[0], w, k);
      var (w1, r) := Exec(env, plan[0], w);
      if r.Ok? { PlanKeepsCounter(env, plan[1..], r.value, w1, k); }
    }
  }

  predicate Shows(w: World, passes: nat) {
    && "loop_index" in w.state && w.state["loop_index"] == Num((passes - 1) as real)
    && "loop_iteration" in w.state && w.state["loop_iteration"] == Num(passes as real)
  }

  /** So when a loop is over, before the outer counters come back, its own show
      the last pass it made: nested loops have not disturbed them. */
  lemma {:induction false} LoopCountsPasses(env: Env, step: Step, index: nat, results: seq<Value>, w: World)
    requires step.Loop? && |results| == index
    requires {"loop_index", "loop_iteration"} !! PlanWrites(step.steps)
    ensures var (w', r) := Iterations(env, step, index, results, w);
            r.Ok? ==>
              && |r.value| >= index
              && (|r.value| == index ==> w' == w)
              && (|r.value| > index ==> Shows(w', |r.value|))
    decreases step.maxLoops - index
  {
    hide ExecAll, Enter, Leave, ShouldStop;
    if index < step.maxLoops {
      var w1 := Puts(Puts(w, "loop_index", Num(index as real)), "loop_iteration", Num((index + 1) as real));
      var e := Enters(w1, IterationSpan);
      PlanKeepsCounter(env, step.steps, Null, e, "loop_index");
      PlanKeepsCounter(env, step.steps, Null, e, "loop_iteration");
      var (w2, r) := ExecAll(env, step.steps, Null, e);
      if r.Ok? {
        var results' := results + [r.value];
        var w3 := Puts(Leaves(w2, true), "loop_results", List(results'));
        StopMade(env, step, w3);
        var (w4, stop) := ShouldStop(env, step, w3);
        assert Shows(w4, index + 1);
        if stop.Ok? && !stop.value { LoopCountsPasses(env, step, index + 1, results', w4); }
      }
    }
  }

  // ---- what a step leaves in state ----

  /** A step that ran and succeeded has put its result under "last" and under
      its key; one that was skipped changed neither state nor ledger and hands
      on what was last; one that failed has put nothing there itself. */
  lemma StepLeavesOutput(env: Env, step: Step, w: World)
    ensures var (w', r) := Exec(env, step, w);
            var skip := step.head.skipIf.Some? && Holds(env, step.head.skipIf.value, w.state) == Ok(true);
            && (skip ==> r == Ok(Last(w.state)) && w'.state == w.state && w'.books.ledger == w.books.ledger
                         && w'.completions == w.completions)
            && (!skip && r.Ok? ==>
                  && "last" in w'.state && w'.state["last"] == r.value
                  && (step.head.outputKey != "" ==>
                        step.head.outputKey in w'.state && w'.state[step.head.outputKey] == r.value))
            && (r.Err? && w.books.ledger.Refuses() ==> w' == w)
  {
    hide RunStep, Holds, Enter, Leave;
  }
}
