/** What a plan can spend, and how much work it can make. */
module Spending {
  import opened Prelude
  import opened Costs
  import opened Trace
  import opened Books
  import opened Template
  import opened Plans
  import opened Interpreter
  import opened Conservation

  // ---- the ceiling ----

  function ToolCost(a: ToolAnswer): real {
    if Billable(a.cost) then a.cost.value.usd else 0.0
  }

  function BatchCost(calls: seq<Request>): real {
    if calls == [] then 0.0 else ToolCost(calls[0].answer) + BatchCost(calls[1..])
  }

  function CompletionCost(c: Option<Completion>): real {
    if c.None? then 0.0 else Max(c.value.cost.usd, BatchCost(c.value.calls))
  }

  /** The most that the n-th request can cost: a completion, the calls of its
      turn together, or a tool the plan calls. */
  function Price(env: Env, n: nat): real {
    var r := env.reply(n);
    Max(Max(CompletionCost(Fetch(env.maxAttempts, r.source).0), CompletionCost(Fetch(1, r.source).0)),
        Max(0.0, ToolCost(r.answer)))
  }

  function LastPrice(env: Env, w: World): real {
    if w.asked == 0 then 0.0 else Price(env, w.asked - 1)
  }

  /** What a run may spend on its plan: nothing recorded counts as nothing. */
  function Cap(l: Ledger): real
    requires l.Limit().Some?
  {
    Max(0.0, l.Limit().value)
  }

  function Outstanding(ss: seq<Straggler>): real {
    if ss == [] then 0.0 else ToolCost(ss[0].answer) + Outstanding(ss[1..])
  }

  /** What is recorded and what calls still in the air will record. */
  function Committed(w: World): real {
    w.books.ledger.Spent() + Outstanding(w.stragglers)
  }

  lemma {:induction false} OutstandingConcat(xs: seq<Straggler>, ys: seq<Straggler>)
    ensures Outstanding(xs + ys) == Outstanding(xs) + Outstanding(ys)
  {
    if xs == [] {
      assert xs + ys == ys;
    } else {
      assert (xs + ys)[1..] == xs[1..] + ys;
      OutstandingConcat(xs[1..], ys);
    }
  }

  lemma OutstandingWithout(ss: seq<Straggler>, i: nat)
    requires i < |ss|
    ensures Outstanding(ss) == ToolCost(ss[i].answer) + Outstanding(Without(ss, i))
  {
    OutstandingConcat(ss[..i], ss[i..]);
    OutstandingConcat(ss[..i], ss[i + 1..]);
    assert ss == ss[..i] + ss[i..];
    assert ss[i..][1..] == ss[i + 1..];
  }

  lemma ChargesSpends(w: World, span: nat, kind: Kind, name: string, cost: Cost)
    ensures Charges(w, span, kind, name, cost).books.ledger.Spent() == w.books.ledger.Spent() + cost.usd
  {
    TotalSnoc(w.books.ledger.records, Record(kind, name, cost, span));
  }

  /** A call that lands turns what was outstanding into what is recorded. */
  lemma LandsSpends(w: World, s: Straggler)
    ensures Lands(w, s).0.books.ledger.Spent() == w.books.ledger.Spent() + ToolCost(s.answer)
    ensures Lands(w, s).0.stragglers == w.stragglers && Lands(w, s).0.asked == w.asked
    ensures SameCeilings(w.books.ledger, Lands(w, s).0.books.ledger)
  {
    if Billable(s.answer.cost) { ChargesSpends(w, s.span, ToolCharge, s.tool, s.answer.cost.value); }
  }

  lemma {:induction false} StragglesSpends(w: World, n: nat, picks: nat -> nat)
    ensures Committed(Straggles(w, n, picks)) == Committed(w)
    ensures Straggles(w, n, picks).asked == w.asked
    ensures SameCeilings(w.books.ledger, Straggles(w, n, picks).books.ledger)
    decreases n
  {
    if n > 0 && w.stragglers != [] {
      var i := picks(|w.stragglers|) % |w.stragglers|;
      LandsSpends(w, w.stragglers[i]);
      OutstandingWithout(w.stragglers, i);
      StragglesSpends(Lands(w, w.stragglers[i]).0.(stragglers := Without(w.stragglers, i)), n - 1, picks);
    }
  }

  lemma {:induction false} DrainsSpends(w: World, inAir: seq<Straggler>, picks: nat -> nat)
    ensures Committed(Drains(w, inAir, picks).0) == Committed(w) + Outstanding(inAir)
    ensures Drains(w, inAir, picks).0.asked == w.asked
    decreases |inAir|
  {
    if inAir != [] {
      var i := picks(|inAir|) % |inAir|;
      LandsSpends(w, inAir[i]);
      OutstandingWithout(inAir, i);
      var (w1, raised) := Lands(w, inAir[i]);
      if raised {
        OutstandingConcat(w1.stragglers, Without(inAir, i));
      } else {
        DrainsSpends(w1, Without(inAir, i), picks);
      }
    }
  }

  lemma {:induction false} SpawnsSpends(w: World, tools: set<string>, calls: seq<Request>)
    requires forall i :: 0 <= i < |calls| ==> ChargesNothingBack(calls[i].answer.cost)
    ensures var (w', ss) := Spawns(w, tools, calls);
            && w'.books.ledger == w.books.ledger && w'.stragglers == w.stragglers && w'.asked == w.asked
            && Outstanding(ss) <= BatchCost(calls)
    decreases calls
  {
    if calls != [] {
      var w1 := if calls[0].tool !in tools then w
                else w.(books := Spawn(w.books));
      SpawnsSpends(w1, tools, calls[1..]);
      if calls[0].tool in tools {
        var rest := Spawns(w1, tools, calls[1..]).1;
        var s := Straggler(|w.books.trace.spans|, calls[0].tool, calls[0].answer);
        assert ([s] + rest)[1..] == rest;
      }
    }
  }

  /** A turn commits at most the cost of all its calls. */
  lemma BatchSpends(env: Env, w: World, calls: seq<Request>, reply: Reply)
    requires forall i :: 0 <= i < |calls| ==> ChargesNothingBack(calls[i].answer.cost)
    ensures var w' := Batch(env, w, calls, reply).0;
            Committed(w') <= Committed(w) + BatchCost(calls) && w'.asked == w.asked
  {
    SpawnsSpends(w, env.tools, calls);
    var (w1, inAir) := Spawns(w, env.tools, calls);
    if !AllKnown(env.tools, calls) {
      OutstandingConcat(w1.stragglers, inAir);
      StragglesSpends(w1.(stragglers := w1.stragglers + inAir), reply.landing, reply.picks);
    } else {
      DrainsSpends(w1, inAir, reply.picks);
      StragglesSpends(Drains(w1, inAir, reply.picks).0, reply.landing, reply.picks);
    }
  }

  /** A stretch of the plan keeps to the ceiling, or fails and stays over it by
      no more than its last request. */
  ghost predicate Bounded(env: Env, w: World, w': World) {
    w.books.ledger.Limit().Some? ==> Committed(w') <= Cap(w.books.ledger) + LastPrice(env, w')
  }

  lemma PriceNotNegative(env: Env, n: nat)
    ensures Price(env, n) >= 0.0
  {
  }

  /** While the plan may go on it is within the ceiling. */
  lemma SteadyIsWithin(w: World)
    requires !Tripped(w.books.ledger) && w.stragglers == [] && w.books.ledger.Limit().Some?
    ensures Committed(w) <= Cap(w.books.ledger)
  {
  }

  lemma SteadyIsBounded(env: Env, w: World, w': World)
    requires !Tripped(w'.books.ledger) && w'.stragglers == []
    requires SameCeilings(w.books.ledger, w'.books.ledger)
    ensures Bounded(env, w, w')
  {
    if w'.asked > 0 { PriceNotNegative(env, w'.asked - 1); }
    if w.books.ledger.Limit().Some? { SteadyIsWithin(w'); }
  }

  lemma AskBounded(env: Env, kind: SpanKind, attempts: int, w: World)
    requires EnvOk(env) && Steady(w) && attempts in {1, env.maxAttempts}
    ensures var (w', r) := Ask(env, kind, attempts, w);
            && Bounded(env, w, w') && w'.asked == w.asked + 1 && w'.stragglers == []
            && SameCeilings(w.books.ledger, w'.books.ledger)
            && (r.Ok? ==> Fetch(attempts, env.reply(w.asked).source).0 == Some(r.value))
  {
    hide Enter, Leave, BatchCost, Total, Outstanding, SetCost;
    var got := Fetch(attempts, env.reply(w.asked).source).0;
    PriceNotNegative(env, w.asked);
    if got.Some? {
      ChargesSpends(Enters(w, kind), |w.books.trace.spans|, LlmCall, "model", got.value.cost);
    }
    if w.books.ledger.Limit().Some? { SteadyIsWithin(w); }
  }

  lemma {:induction false} TurnsBounded(env: Env, turns: nat, last: Option<Completion>, w: World)
    requires EnvOk(env) && Steady(w)
    ensures var (w', r) := Turns(env, turns, last, w); Bounded(env, w, w')
    decreases turns
  {
    hide Ask, Batch, Moves, Steady, Price, Fetch;
    SteadyHere(w);
    SteadyIsBounded(env, w, w);
    if turns > 0 {
      AskBounded(env, ModelSpan, env.maxAttempts, w);
      AskProgress(env, ModelSpan, env.maxAttempts, w);
      var (w1, c) := Ask(env, ModelSpan, env.maxAttempts, w);
      if c.Ok? && c.value.calls != [] {
        TurnProgress(env, w);
        var (w2, b) := Batch(env, w1, c.value.calls, env.reply(w.asked));
        BatchSpends(env, w1, c.value.calls, env.reply(w.asked));
        if w.books.ledger.Limit().Some? {
          SteadyIsWithin(w1);
          CallsWithinPrice(env, w.asked, c.value);
        }
        if b.Ok? {
          ProgressSteady(w, w2);
          ProgressCeilings(w, w2, true);
          TurnsBounded(env, turns - 1, Some(c.value), w2);
        }
      }
    }
  }

  lemma CallsWithinPrice(env: Env, n: nat, c: Completion)
    requires Fetch(env.maxAttempts, env.reply(n).source).0 == Some(c)
    ensures BatchCost(c.calls) <= Price(env, n)
  {
  }

  lemma SteadyHere(w: World)
    requires Steady(w)
    ensures !Tripped(w.books.ledger) && w.stragglers == []
  {
  }

  lemma ProgressCeilings(w: World, w': World, ok: bool)
    requires Progress(w, w', ok)
    ensures SameCeilings(w.books.ledger, w'.books.ledger)
  {
  }

  lemma PromptBounded(env: Env, step: Step, w: World)
    requires step.Prompt? && EnvOk(env) && Steady(w)
    ensures var (w', r) := RunPrompt(env, step, w); Bounded(env, w, w')
  {
    hide Ask, Moves, Price, Steady;
    if Render(step.prompt, w.state, env.show, env.attrs).Err? {
      SteadyHere(w);
      SteadyIsBounded(env, w, w);
    } else if step.stream && !OffersTools(env, step.tools) && env.listening {
      AskBounded(env, ModelSpan, 1, w);
    } else {
      TurnsBounded(env, AtLeast0(step.maxToolIterations + 1), None, w);
    }
  }

  lemma ToolBounded(env: Env, step: Step, w: World)
    requires step.Tool? && EnvOk(env) && Steady(w)
    ensures var (w', r) := RunTool(env, step, w); Bounded(env, w, w')
  {
    SteadyIsBounded(env, w, w);
    PriceNotNegative(env, w.asked);
    var a := env.reply(w.asked).answer;
    if Billable(a.cost) {
      ChargesSpends(Enters(w, ToolSpan), |w.books.trace.spans|, ToolCharge, step.tool, a.cost.value);
    }
    if w.books.ledger.Limit().Some? { SteadyIsWithin(w); }
  }

  lemma StopBounded(env: Env, step: Step, w: World)
    requires step.Loop? && EnvOk(env) && Steady(w)
    ensures var (w', r) := ShouldStop(env, step, w); Bounded(env, w, w')
  {
    hide Ask, Moves;
    SteadyIsBounded(env, w, w);
    AskBounded(env, StopCheckSpan, env.maxAttempts, w);
  }

  lemma {:induction false} IterationsBounded(env: Env, step: Step, index: nat, results: seq<Value>, w: World)
    requires step.Loop? && EnvOk(env) && Steady(w)
    ensures var (w', r) := Iterations(env, step, index, results, w); Bounded(env, w, w')
    decreases step, 1, step.maxLoops - index
  {
    hide Moves, ShouldStop, Price, Enter, Leave, Outstanding, Total;
    SteadyIsBounded(env, w, w);
    if index < step.maxLoops {
      var w1 := Puts(Puts(w, "loop_index", Num(index as real)), "loop_iteration", Num((index + 1) as real));
      var e := Enters(w1, IterationSpan);
      EntersSteady(w1, IterationSpan);
      ExecAllBounded(env, step.steps, Null, e);
      ExecAllProgress(env, step.steps, Null, e);
      var (w2, r) := ExecAll(env, step.steps, Null, e);
      Bracketed(w1, IterationSpan, w2, r.Ok?);
      if r.Ok? {
        var results' := results + [r.value];
        var w3 := Puts(Leaves(w2, true), "loop_results", List(results'));
        ProgressElse(w, w3, true, w3, true);
        ProgressSteady(w, w3);
        ProgressCeilings(w, w3, true);
        StopBounded(env, step, w3);
        StopProgress(env, step, w3);
        var (w4, stop) := ShouldStop(env, step, w3);
        if stop.Ok? && !stop.value {
          ProgressSteady(w3, w4);
          ProgressCeilings(w3, w4, true);
          IterationsBounded(env, step, index + 1, results', w4);
        }
      }
    }
  }

  lemma {:induction false} RunStepBounded(env: Env, step: Step, w: World)
    requires EnvOk(env) && Steady(w)
    ensures var (w', r) := RunStep(env, step, w); Bounded(env, w, w')
    decreases step, 3
  {
    hide RunPrompt, RunTool, Moves, Iterations, Restores, Price, Outstanding, Total;
    match step
    case Prompt(_, _, _, _, _, _) => PromptBounded(env, step, w);
    case Tool(_, _, _, _) => ToolBounded(env, step, w);
    case Loop(_, _, _, _, _, _) => IterationsBounded(env, step, 0, [], Puts(w, "loop_results", List([])));
  }

  lemma {:induction false} ExecBounded(env: Env, step: Step, w: World)
    requires EnvOk(env) && Steady(w)
    ensures var (w', r) := Exec(env, step, w); Bounded(env, w, w')
    decreases step, 4
  {
    hide RunStep, Moves, Leave, Attach, Eval, Price, Outstanding, Total;
    SteadyIsBounded(env, w, w);
    var skip := if step.head.skipIf.None? then Ok(false) else Holds(env, step.head.skipIf.value, w.state);
    if skip.Ok? && !skip.value && !w.books.ledger.Refuses() {
      var kind := if step.Loop? then LoopSpan else StepSpan;
      EntersSteady(w, kind);
      RunStepBounded(env, step, Enters(w, kind));
    }
  }

  /** Over any plan and any outside that charges nothing back: what is recorded
      and what is still in the air exceeds the ceiling by at most the last
      request that was made, be it a completion, a tool, or a turn's calls. */
  lemma {:induction false} ExecAllBounded(env: Env, plan: Plan, acc: Value, w: World)
    requires EnvOk(env) && Steady(w)
    ensures var (w', r) := ExecAll(env, plan, acc, w); Bounded(env, w, w')
    decreases plan, 0
  {
    hide Exec, Moves;
    SteadyIsBounded(env, w, w);
    if plan != [] {
      ExecBounded(env, plan[0], w);
      ExecProgress(env, plan[0], w);
      var (w1, r) := Exec(env, plan[0], w);
      if r.Ok? {
        ProgressSteady(w, w1);
        ProgressCeilings(w, w1, true);
        ExecAllBounded(env, plan[1..], r.value, w1);
      }
    }
  }
}
