/** When calls stay in the air: after the turn that made them, and after the run. */
module Stragglers {
  import opened Prelude
  import opened Costs
  import opened Trace
  import opened Books
  import opened Template
  import opened Plans
  import opened Interpreter
  import opened Conservation
  import opened Spending
  import opened Stopping
  import opened Agent
  import opened Answers
  import opened Sorting

  // ---- one turn ----

  predicate NothingBack(ss: seq<Straggler>) {
    forall i :: 0 <= i < |ss| ==> ChargesNothingBack(ss[i].answer.cost)
  }

  /** No order of return leaves a call behind: the calls do not cross the
      ceiling together, or do so only with the last of them, whichever it is.
      A turn with an unknown tool must have no known one. */
  predicate LandsWhole(env: Env, w: World, calls: seq<Request>) {
    var ss := Spawns(w, env.tools, calls).1;
    if !AllKnown(env.tools, calls) then ss == []
    else !TripsTogether(w, ss) || NeedsAll(w, ss)
  }

  predicate NeedsAll(w: World, ss: seq<Straggler>) {
    forall i :: 0 <= i < |ss| ==> !TripsTogether(w, Without(ss, i))
  }

  /** Taking two elements out, in either order. */
  lemma WithoutTwo<T>(xs: seq<T>, i: nat, k: nat)
    requires i < |xs| && k < |xs| - 1
    ensures var k' := if k < i then k else k + 1;
            var i' := if i < k' then i else i - 1;
            && Without(xs, i)[k] == xs[k'] && k' != i
            && Without(xs, k')[i'] == xs[i]
            && Without(Without(xs, i), k) == Without(Without(xs, k'), i')
  {
  }

  lemma NothingBackWithout(ss: seq<Straggler>, i: nat)
    requires NothingBack(ss) && i < |ss|
    ensures NothingBack(Without(ss, i))
  {
    var r := Without(ss, i);
    forall k | 0 <= k < |r| ensures ChargesNothingBack(r[k].answer.cost) {
      assert r[k] == ss[if k < i then k else k + 1];
    }
  }

  /** Landing one of them changes nothing in whether those but `k` trip. */
  lemma LandsKeepsTrips(w: World, ss: seq<Straggler>, i: nat, k: nat)
    requires NothingBack(ss) && i < |ss| && k < |ss| - 1
    ensures var k' := if k < i then k else k + 1;
            var (w1, raised) := Lands(w, ss[i]);
            !raised ==> (TripsTogether(w1, Without(Without(ss, i), k)) <==> TripsTogether(w, Without(ss, k')))
  {
    hide Lands, Outstanding, Total;
    var k' := if k < i then k else k + 1;
    var i' := if i < k' then i else i - 1;
    var both := Without(Without(ss, i), k);
    WithoutTwo(ss, i, k);
    LandsSpends(w, ss[i]);
    LandsOver(w, ss[i]);
    OutstandingWithout(Without(ss, k'), i');
    BillableWithout(Without(ss, k'), i');
    NothingBackWithout(ss, i);
    NothingBackWithout(Without(ss, i), k);
    OutstandingNotNegative(both);
    if !AnyBillable(both) { NothingOutstanding(both); }
  }

  lemma {:induction false} NeedsAllLeavesNone(w: World, ss: seq<Straggler>, picks: nat -> nat)
    requires NothingBack(ss) && NeedsAll(w, ss)
    ensures Drains(w, ss, picks).0.stragglers == w.stragglers
    decreases |ss|
  {
    hide Lands, Outstanding, Total, TripsTogether;
    if ss != [] {
      var i := picks(|ss|) % |ss|;
      var rest := Without(ss, i);
      var (w1, raised) := Lands(w, ss[i]);
      LandsSpends(w, ss[i]);
      NothingBackWithout(ss, i);
      if raised {
        if rest != [] { TripsAlone(w, ss, i, if i == 0 then 1 else 0); }
      } else {
        forall k | 0 <= k < |rest| ensures !TripsTogether(w1, Without(rest, k)) {
          LandsKeepsTrips(w, ss, i, k);
        }
        NeedsAllLeavesNone(w1, rest, picks);
      }
    }
  }

  /** A call that trips when it lands trips any set it belongs to. */
  lemma TripsAlone(w: World, ss: seq<Straggler>, i: nat, k: nat)
    requires NothingBack(ss) && i < |ss| && k < |ss| && i != k && Lands(w, ss[i]).1
    ensures TripsTogether(w, Without(ss, k))
  {
    hide Lands, Outstanding, Total;
    var i' := if i < k then i else i - 1;
    assert Without(ss, k)[i'] == ss[i];
    LandsSpends(w, ss[i]);
    LandsOver(w, ss[i]);
    OutstandingWithout(Without(ss, k), i');
    BillableWithout(Without(ss, k), i');
    NothingBackWithout(ss, k);
    NothingBackWithout(Without(ss, k), i');
    OutstandingNotNegative(Without(Without(ss, k), i'));
  }

  /** An order of return that lets the call first at `at` of `size` wait. */
  function Sparing(at: nat, size: nat): nat -> nat {
    (n: nat) => if at + n > size then 0 else 1
  }

  lemma SparingPicks(p: nat, at: nat, size: nat, n: nat)
    requires 0 < n && (p > 0 || n > 1)
    requires p == if at + n > size then at + n - size else 0
    ensures Sparing(at, size)(n) % n == if p > 0 then 0 else 1
  {
  }

  lemma SomeTrip(w: World, ss: seq<Straggler>)
    requires TripsTogether(w, ss)
    ensures ss != []
  {
  }

  lemma {:induction false} SparedStays(w: World, ss: seq<Straggler>, p: nat, at: nat, size: nat)
    requires NothingBack(ss) && p < |ss| <= size
    requires p == if at + |ss| > size then at + |ss| - size else 0
    requires TripsTogether(w, Without(ss, p))
    ensures |Drains(w, ss, Sparing(at, size)).0.stragglers| > |w.stragglers|
    decreases |ss|
  {
    hide Lands, Outstanding, Total, Sparing, TripsTogether;
    SomeTrip(w, Without(ss, p));
    SparingPicks(p, at, size, |ss|);
    var i := if p > 0 then 0 else 1;
    var rest := Without(ss, i);
    var (w1, raised) := Lands(w, ss[i]);
    LandsSpends(w, ss[i]);
    if !raised {
      var k := if p > 0 then p - 1 else 0;
      LandsKeepsTrips(w, ss, i, k);
      NothingBackWithout(ss, i);
      SparedStays(w1, rest, k, at, size);
    }
  }

  /** What is known of the calls of a turn once they have opened. */
  lemma {:induction false} SpawnsKeeps(w: World, tools: set<string>, calls: seq<Request>)
    ensures var (w', ss) := Spawns(w, tools, calls);
            && w'.books.ledger == w.books.ledger && w'.stragglers == w.stragglers
            && |ss| <= |calls|
            && ((forall i :: 0 <= i < |calls| ==> ChargesNothingBack(calls[i].answer.cost)) ==> NothingBack(ss))
    decreases calls
  {
    if calls != [] {
      SpawnsKeeps(if calls[0].tool !in tools then w else w.(books := Spawn(w.books)), tools, calls[1..]);
    }
  }

  /** A turn ends well if and only if its tools are known and its calls do not
      cross the ceiling together; and it leaves no call in the air, in whatever
      order they return and however long the run waits, if and only if
      `LandsWhole`. */
  lemma TurnLeavesNoneIff(env: Env, w: World, calls: seq<Request>)
    requires w.stragglers == []
    requires forall i :: 0 <= i < |calls| ==> ChargesNothingBack(calls[i].answer.cost)
    ensures forall reply ::
              Batch(env, w, calls, reply).1.Ok? <==>
              (forall i :: 0 <= i < |calls| ==> calls[i].tool in env.tools)
              && !TripsTogether(w, Spawns(w, env.tools, calls).1)
    ensures LandsWhole(env, w, calls) <==> forall reply :: Batch(env, w, calls, reply).0.stragglers == []
  {
    hide Spawns, Drains, TripsTogether, AllKnown;
    SpawnsKeeps(w, env.tools, calls);
    AllKnownIs(env.tools, calls);
    var (w1, ss) := Spawns(w, env.tools, calls);
    forall reply: Reply
      ensures Batch(env, w, calls, reply).1.Ok? <==> AllKnown(env.tools, calls) && !TripsTogether(w, ss)
    {
      SameTrips(w, w1, ss);
      TripIgnoresOrder(w1, ss, reply.picks);
    }
    if LandsWhole(env, w, calls) {
      forall reply: Reply ensures Batch(env, w, calls, reply).0.stragglers == [] {
        WholeLeavesNone(env, w, calls, reply);
      }
    } else {
      var reply := PartLeavesSome(env, w, calls);
    }
  }

  lemma AllKnownIs(tools: set<string>, calls: seq<Request>)
    ensures AllKnown(tools, calls) <==> forall i :: 0 <= i < |calls| ==> calls[i].tool in tools
  {
  }

  lemma SameTrips(w: World, w1: World, ss: seq<Straggler>)
    requires w1.books.ledger == w.books.ledger
    ensures TripsTogether(w1, ss) == TripsTogether(w, ss)
  {
  }

  lemma WholeLeavesNone(env: Env, w: World, calls: seq<Request>, reply: Reply)
    requires w.stragglers == [] && LandsWhole(env, w, calls)
    requires forall i :: 0 <= i < |calls| ==> ChargesNothingBack(calls[i].answer.cost)
    ensures Batch(env, w, calls, reply).0.stragglers == []
  {
    hide Spawns, Drains, TripsTogether, AllKnown;
    SpawnsKeeps(w, env.tools, calls);
    var (w1, ss) := Spawns(w, env.tools, calls);
    SameTrips(w, w1, ss);
    if AllKnown(env.tools, calls) {
      TripIgnoresOrder(w1, ss, reply.picks);
      if TripsTogether(w, ss) {
        forall i | 0 <= i < |ss| ensures !TripsTogether(w1, Without(ss, i)) {
          SameTrips(w, w1, Without(ss, i));
        }
        NeedsAllLeavesNone(w1, ss, reply.picks);
      } else {
        DrainsLeavesNone(w1, ss, reply.picks);
      }
    }
  }

  lemma PartLeavesSome(env: Env, w: World, calls: seq<Request>) returns (reply: Reply)
    requires w.stragglers == [] && !LandsWhole(env, w, calls)
    requires forall i :: 0 <= i < |calls| ==> ChargesNothingBack(calls[i].answer.cost)
    ensures Batch(env, w, calls, reply).0.stragglers != []
  {
    hide Spawns, Drains, TripsTogether, AllKnown;
    SpawnsKeeps(w, env.tools, calls);
    var (w1, ss) := Spawns(w, env.tools, calls);
    reply := env.reply(0).(landing := 0);
    if AllKnown(env.tools, calls) {
      var at :| 0 <= at < |ss| && TripsTogether(w, Without(ss, at));
      reply := reply.(picks := Sparing(at, |ss|));
      SameTrips(w, w1, Without(ss, at));
      SameTrips(w, w1, ss);
      TripIgnoresOrder(w1, ss, reply.picks);
      SparedStays(w1, ss, at, at, |ss|);
    }
  }

  // ---- in the figures of the calls ----

  function Known(tools: set<string>): Request -> bool {
    (c: Request) => c.tool in tools
  }

  /** A turn opens a span for each call of a known tool, in order, and for no other. */
  lemma {:induction false} SpawnsKnown(w: World, tools: set<string>, calls: seq<Request>)
    requires Open(w.books.trace, w.books.trace.current)
    ensures var ss, known := Spawns(w, tools, calls).1, Where(calls, Known(tools));
            && |ss| == |known|
            && forall i :: 0 <= i < |ss| ==>
                 && ss[i].span == |w.books.trace.spans| + i
                 && ss[i].tool == known[i].tool && ss[i].answer == known[i].answer
    decreases calls
  {
    if calls != [] {
      var call, rest := calls[0], calls[1..];
      assert calls == [call] + rest;
      WhereConcat([call], rest, Known(tools));
      assert [call][..0] == [];
      assert Where([call], Known(tools)) == if call.tool in tools then [call] else [];
      if call.tool in tools {
        var w1 := w.(books := Spawn(w.books));
        SpawnsKnown(w1, tools, rest);
        assert Where(calls, Known(tools)) == [call] + Where(rest, Known(tools));
      } else {
        SpawnsKnown(w, tools, rest);
        assert [] + Where(rest, Known(tools)) == Where(rest, Known(tools));
      }
    }
  }

  predicate AnyPriced(calls: seq<Request>) {
    exists i :: 0 <= i < |calls| && Priced(calls[i].answer)
  }

  lemma {:induction false} OutstandingIsCost(ss: seq<Straggler>, calls: seq<Request>)
    requires |ss| == |calls| && forall i :: 0 <= i < |ss| ==> ss[i].answer == calls[i].answer
    ensures Outstanding(ss) == BatchCost(calls)
  {
    if ss != [] { OutstandingIsCost(ss[1..], calls[1..]); }
  }

  lemma BillableIsPriced(ss: seq<Straggler>, calls: seq<Request>)
    requires |ss| == |calls| && forall i :: 0 <= i < |ss| ==> ss[i].answer == calls[i].answer
    ensures AnyBillable(ss) <==> AnyPriced(calls)
  {
    if i :| 0 <= i < |ss| && Billable(ss[i].answer.cost) { assert Priced(calls[i].answer); }
    if i :| 0 <= i < |calls| && Priced(calls[i].answer) { assert Billable(ss[i].answer.cost); }
  }

  lemma {:induction false} WhereAllKnown(calls: seq<Request>, tools: set<string>)
    requires forall i :: 0 <= i < |calls| ==> calls[i].tool in tools
    ensures Where(calls, Known(tools)) == calls
  {
    if calls != [] {
      WhereAllKnown(calls[..|calls| - 1], tools);
      assert calls == calls[..|calls| - 1] + [calls[|calls| - 1]];
    }
  }

  /** How a turn ends: with an unknown tool if any of them is, and else over the
      ceiling in force exactly if something is priced and all together cross it. */
  lemma TurnEnds(env: Env, w: World, calls: seq<Request>, reply: Reply)
    requires Open(w.books.trace, w.books.trace.current)
    requires forall i :: 0 <= i < |calls| ==> ChargesNothingBack(calls[i].answer.cost)
    ensures var r := Batch(env, w, calls, reply).1;
            var l := w.books.ledger;
            && (r == Err(UnknownTool) <==> exists i :: 0 <= i < |calls| && calls[i].tool !in env.tools)
            && (r == Err(OverBudget) <==>
                  && (forall i :: 0 <= i < |calls| ==> calls[i].tool in env.tools)
                  && AnyPriced(calls) && l.maxUsd.Some?
                  && l.Spent() + BatchCost(calls) > l.maxUsd.value + if l.reserveOpen then l.reserveUsd else 0.0)
            && (r.Ok? || r == Err(UnknownTool) || r == Err(OverBudget))
  {
    hide Spawns, Drains, Outstanding, BatchCost, Total;
    SpawnsKeeps(w, env.tools, calls);
    var (w1, ss) := Spawns(w, env.tools, calls);
    if forall i :: 0 <= i < |calls| ==> calls[i].tool in env.tools {
      assert AllKnown(env.tools, calls);
      SpawnsKnown(w, env.tools, calls);
      WhereAllKnown(calls, env.tools);
      OutstandingIsCost(ss, calls);
      BillableIsPriced(ss, calls);
      TripIgnoresOrder(w1, ss, reply.picks);
    } else {
      assert !AllKnown(env.tools, calls);
    }
  }

  // ---- a whole run ----

  /** Answers that cannot leave a call in the air: they ask for one at most, or
      only for tools that are known where there is no ceiling to cross. */
  predicate Calm(env: Env, ceiling: Option<real>, calls: seq<Request>) {
    |calls| <= 1 || (ceiling.None? && AllKnown(env.tools, calls))
  }

  ghost predicate CalmOutside(env: Env, ceiling: Option<real>) {
    forall attempts: int, n: nat ::
      var got := Fetch(attempts, env.reply(n).source).0;
      got.Some? ==> Calm(env, ceiling, got.value.calls)
  }

  /** Nothing in the air, and the ceiling as it was. */
  predicate Quiet(w: World, ceiling: Option<real>) {
    w.stragglers == [] && w.books.ledger.maxUsd == ceiling
  }

  lemma AskQuiet(env: Env, kind: SpanKind, attempts: int, w: World, ceiling: Option<real>)
    requires Quiet(w, ceiling) && CalmOutside(env, ceiling)
    ensures var (w', r) := Ask(env, kind, attempts, w);
            Quiet(w', ceiling) && (r.Ok? ==> Calm(env, ceiling, r.value.calls))
  {
    hide Fetch, Enter, Leave, SetCost, Total;
  }

  lemma {:induction false} UnmeteredDrains(w: World, ss: seq<Straggler>, picks: nat -> nat)
    requires Quiet(w, None)
    ensures var (w', raised) := Drains(w, ss, picks); !raised && Quiet(w', None)
    decreases |ss|
  {
    if ss != [] {
      var i := picks(|ss|) % |ss|;
      UnmeteredDrains(Lands(w, ss[i]).0, Without(ss, i), picks);
    }
  }

  lemma OneDrains(w: World, ss: seq<Straggler>, picks: nat -> nat)
    requires |ss| <= 1
    ensures var w' := Drains(w, ss, picks).0;
            w'.stragglers == w.stragglers && w'.books.ledger.maxUsd == w.books.ledger.maxUsd
  {
    hide Total, SetCost, Settle;
    if ss != [] { assert Without(ss, 0) == []; }
  }

  lemma BatchQuiet(env: Env, w: World, calls: seq<Request>, reply: Reply, ceiling: Option<real>)
    requires Quiet(w, ceiling) && Calm(env, ceiling, calls)
    ensures Quiet(Batch(env, w, calls, reply).0, ceiling)
  {
    hide Spawns, Drains;
    SpawnsKeeps(w, env.tools, calls);
    var (w1, ss) := Spawns(w, env.tools, calls);
    if !AllKnown(env.tools, calls) {
      OneUnknown(w, env.tools, calls);
    } else if |ss| <= 1 {
      OneDrains(w1, ss, reply.picks);
    } else {
      UnmeteredDrains(w1, ss, reply.picks);
    }
  }

  lemma OneUnknown(w: World, tools: set<string>, calls: seq<Request>)
    requires |calls| <= 1 && !AllKnown(tools, calls)
    ensures Spawns(w, tools, calls).1 == []
  {
    assert calls[1..] == [];
  }

  lemma {:induction false} TurnsQuiet(
    env: Env, turns: nat, last: Option<Completion>, w: World, ceiling: Option<real>)
    requires Quiet(w, ceiling) && CalmOutside(env, ceiling)
    ensures Quiet(Turns(env, turns, last, w).0, ceiling)
    decreases turns
  {
    hide Ask, Batch, CalmOutside;
    if turns > 0 {
      AskQuiet(env, ModelSpan, env.maxAttempts, w, ceiling);
      var (w1, c) := Ask(env, ModelSpan, env.maxAttempts, w);
      if c.Ok? && c.value.calls != [] {
        BatchQuiet(env, w1, c.value.calls, env.reply(w.asked), ceiling);
        var (w2, b) := Batch(env, w1, c.value.calls, env.reply(w.asked));
        if b.Ok? { TurnsQuiet(env, turns - 1, Some(c.value), w2, ceiling); }
      }
    }
  }

  lemma PromptQuiet(env: Env, step: Step, w: World, ceiling: Option<real>)
    requires step.Prompt? && Quiet(w, ceiling) && CalmOutside(env, ceiling)
    ensures Quiet(RunPrompt(env, step, w).0, ceiling)
  {
    hide Ask, Turns, Render, CalmOutside;
    AskQuiet(env, ModelSpan, 1, w, ceiling);
    TurnsQuiet(env, AtLeast0(step.maxToolIterations + 1), None, w, ceiling);
  }

  lemma ToolQuiet(env: Env, step: Step, w: World, ceiling: Option<real>)
    requires step.Tool? && Quiet(w, ceiling)
    ensures Quiet(RunTool(env, step, w).0, ceiling)
  {
    hide RenderArgs, Enter, Leave, SetCost, Total;
  }

  lemma StopQuiet(env: Env, step: Step, w: World, ceiling: Option<real>)
    requires step.Loop? && Quiet(w, ceiling) && CalmOutside(env, ceiling)
    ensures Quiet(ShouldStop(env, step, w).0, ceiling)
  {
    hide Ask, Render, Enter, Leave, CalmOutside;
    AskQuiet(env, StopCheckSpan, env.maxAttempts, w, ceiling);
  }

  lemma {:induction false} IterationsQuiet(
    env: Env, step: Step, index: nat, results: seq<Value>, w: World, ceiling: Option<real>)
    requires step.Loop? && Quiet(w, ceiling) && CalmOutside(env, ceiling)
    ensures Quiet(Iterations(env, step, index, results, w).0, ceiling)
    decreases step, 1, step.maxLoops - index
  {
    hide ShouldStop, Enter, Leave, CalmOutside;
    if index < step.maxLoops {
      var w1 := Puts(Puts(w, "loop_index", Num(index as real)), "loop_iteration", Num((index + 1) as real));
      var e := Enters(w1, IterationSpan);
      ExecAllQuiet(env, step.steps, Null, e, ceiling);
      var (w2, r) := ExecAll(env, step.steps, Null, e);
      if r.Ok? {
        var results' := results + [r.value];
        var w3 := Puts(Leaves(w2, true), "loop_results", List(results'));
        StopQuiet(env, step, w3, ceiling);
        var (w4, stop) := ShouldStop(env, step, w3);
        if stop.Ok? && !stop.value { IterationsQuiet(env, step, index + 1, results', w4, ceiling); }
      }
    }
  }

  lemma {:induction false} RunStepQuiet(env: Env, step: Step, w: World, ceiling: Option<real>)
    requires Quiet(w, ceiling) && CalmOutside(env, ceiling)
    ensures Quiet(RunStep(env, step, w).0, ceiling)
    decreases step, 3
  {
    hide RunPrompt, RunTool, Iterations, Restores, CalmOutside;
    match step
    case Prompt(_, _, _, _, _, _) => PromptQuiet(env, step, w, ceiling);
    case Tool(_, _, _, _) => ToolQuiet(env, step, w, ceiling);
    case Loop(_, _, _, _, _, _) => IterationsQuiet(env, step, 0, [], Puts(w, "loop_results", List([])), ceiling);
  }

  lemma {:induction false} ExecAllQuiet(env: Env, plan: Plan, acc: Value, w: World, ceiling: Option<real>)
    requires Quiet(w, ceiling) && CalmOutside(env, ceiling)
    ensures Quiet(ExecAll(env, plan, acc, w).0, ceiling)
    decreases plan, 0
  {
    hide RunStep, Enter, Leave, Holds, CalmOutside;
    if plan != [] {
      RunStepQuiet(env, plan[0], Enters(w, if plan[0].Loop? then LoopSpan else StepSpan), ceiling);
      var (w1, r) := Exec(env, plan[0], w);
      if r.Ok? { ExecAllQuiet(env, plan[1..], r.value, w1, ceiling); }
    }
  }

  /** If no answer asks for more than one call, or there is no ceiling and all
      tools asked for are known, nothing is running once a run is over. */
  lemma CalmRunLeavesNone(env: Env, c: Config, plan: Plan, question: string, inputs: State)
    requires EnvOk(env) && CalmOutside(env, c.maxUsd)
    ensures var r := RunAgent(env, c, plan, question, inputs);
            r.world.stragglers == [] && OpenSpans(r.world.books.trace) == {}
  {
    hide ExecAll, Finish, CalmOutside, OpenSpans, EnvOk;
    var w0 := Start(c, question, inputs);
    ExecAllQuiet(env, plan, Null, w0, c.maxUsd);
    FinishedRunBalances(env, c, plan, question, inputs);
  }

  lemma SpawnsTwo(w: World, tools: set<string>, a: Request)
    requires a.tool in tools
    ensures var (w', ss) := Spawns(w, tools, [a, a]);
            && |ss| == 2 && ss[0].answer == a.answer && ss[1].answer == a.answer
            && w'.books.ledger == w.books.ledger && w'.stragglers == w.stragglers
  {
    hide Attach;
    assert [a, a][1..] == [a] && [a][1..] == [];
    var w1 := w.(books := Spawn(w.books));
    assert Spawns(w1, tools, [a]).1 == [Straggler(|w1.books.trace.spans|, a.tool, a.answer)];
  }

  /** The first of two calls to land crosses the ceiling; the other stays. */
  lemma TooDear(w: World, ss: seq<Straggler>, picks: nat -> nat)
    requires |ss| == 2 && w.books.ledger.Limit().Some? && NothingBack(ss)
    requires forall i :: 0 <= i < 2 ==>
               && Billable(ss[i].answer.cost)
               && w.books.ledger.Spent() + ToolCost(ss[i].answer) > w.books.ledger.Limit().value
    ensures var (w', raised) := Drains(w, ss, picks); raised && w'.stragglers != []
  {
    hide Lands, Total;
    var i := picks(2) % 2;
    LandsSpends(w, ss[i]);
    LandsOver(w, ss[i]);
    assert |Without(ss, i)| == 1;
  }

  lemma DearTurn(env: Env, w: World, a: Request)
    requires w.stragglers == [] && w.books.ledger.Limit().Some? && a.tool in env.tools
    requires w.books.ledger.Spent() == 0.0 && w.books.ledger.Limit().value > 0.0
    requires a.answer.cost.Some? && a.answer.cost.value.usd > w.books.ledger.Limit().value
    requires env.reply(w.asked).source == FromCache(Completion(Cost(0.0, true), "", None, [], [a, a]))
    requires env.reply(w.asked).landing == 0
    ensures var (w', r) := Turns(env, 2, None, w); r == Err(OverBudget) && w'.stragglers != []
  {
    hide Spawns, Drains, Enter, Leave, SetCost, Total;
    var reply := env.reply(w.asked);
    ChargesSpends(Enters(w, ModelSpan), |w.books.trace.spans|, LlmCall, "model", Cost(0.0, true));
    var (w1, c) := Ask(env, ModelSpan, env.maxAttempts, w);
    assert c.Ok? && c.value.calls == [a, a];
    SpawnsTwo(w1, env.tools, a);
    var (w2, ss) := Spawns(w1, env.tools, [a, a]);
    TooDear(w2, ss, reply.picks);
    assert AllKnown(env.tools, [a, a]);
    assert Batch(env, w1, [a, a], reply) == (Drains(w2, ss, reply.picks).0, Err(OverBudget));
  }

  /** Otherwise something may be: an answer that asks for two calls, each of
      them too dear. The first to land raises, and the run ends with the other
      in the air and its span open. */
  lemma CallOutlivesRun(env: Env, c: Config, plan: Plan, a: Request, question: string, inputs: State)
    requires EnvOk(env) && a.tool in env.tools
    requires c.maxUsd.Some? && c.maxUsd.value > 0.0 && c.maxCalls.None? && !c.maxSpendMode
    requires a.answer.cost.Some? && a.answer.cost.value.usd > c.maxUsd.value
    requires env.reply(0).source == FromCache(Completion(Cost(0.0, true), "", None, [], [a, a]))
    requires env.reply(0).landing == 0
    requires plan == [Prompt(Head("", None), [], ["*"], 1, false, false)]
    ensures var r := RunAgent(env, c, plan, question, inputs);
            && r.error == Some(Stopped(OverBudget))
            && r.world.books.trace.finished && OpenSpans(r.world.books.trace) != {}
  {
    hide Turns, OpenSpans, EnvOk, Finish, Enter, Leave;
    var w0 := Start(c, question, inputs);
    var e := Enters(w0, StepSpan);
    DearTurn(env, e, a);
    var step := plan[0];
    assert plan[1..] == [];
    assert Render([], w0.state, env.show, env.attrs) == Ok("");
    assert RunPrompt(env, step, e) == (Turns(env, 2, None, e).0, Err(OverBudget));
    var (w1, r) := Exec(env, step, w0);
    assert r == Err(OverBudget) && w1.stragglers != [];
    assert ExecAll(env, plan, Null, w0) == (w1, Err(OverBudget));
    FinishedRunBalances(env, c, plan, question, inputs);
  }
}
