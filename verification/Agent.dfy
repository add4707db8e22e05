/** One run of an agent, whole (`rsi_arena/agent/agent.py`). */
module Agent {
  import opened Prelude
  import opened Costs
  import opened Trace
  import opened Books
  import opened Template
  import opened Plans
  import opened Interpreter
  import opened Conservation
  import opened Spending
  import opened Effort
  import Stopping
  import Runtime
  import Retry

  datatype Config = Config(
    maxUsd: Option<real>,
    maxCalls: Option<int>,
    maxSpendMode: bool,
    bailoutReserve: Option<real>)

  function ReserveUsd(c: Config): real {
    if !c.maxSpendMode then 0.0
    else if c.bailoutReserve.Some? then Max(0.0, c.bailoutReserve.value)
    else if c.maxUsd.None? then 0.05
    else Max(0.02, c.maxUsd.value * 0.05)
  }

  lemma ReserveIsNoDebt(c: Config)
    ensures ReserveUsd(c) >= 0.0
  {
  }

  /** `MaxSpend` is the error of a run that bailed out or tried to. */
  datatype RunError = Stopped(failure: Failure) | MaxSpend(answered: bool)

  datatype AgentResult = AgentResult(world: World, output: Value, error: Option<RunError>, bailedOut: bool)

  datatype ErrorKind = MaxSpendKind | BudgetKind | ProviderKind | ApiKind | PlanKind | OtherKind

  /** `classify`, on the exceptions a run can end with. */
  function Classify(e: RunError): ErrorKind {
    match e
    case MaxSpend(_) => MaxSpendKind
    case Stopped(OverBudget) => BudgetKind
    case Stopped(Provider) => ProviderKind
    case Stopped(Unresolved(_)) => PlanKind
    case Stopped(UnknownTool) => PlanKind
    case Stopped(BadCondition(fault)) =>
      if fault.Operation? && !fault.missingKey then OtherKind else PlanKind
    case Stopped(_) => OtherKind
  }

  function Start(c: Config, question: string, inputs: State): World {
    World(map["question" := Text(question)] + inputs,
          Books(NewTrace(), Ledger(c.maxUsd, c.maxCalls, ReserveUsd(c), false, []), []), 0, 0, 0, [])
  }

  /** `_bail_out`: the reserve opens, and one call without tools is made from
      the root. Stragglers may land while it is out. */
  function BailOut(env: Env, w: World): (World, Option<string>) {
    var reply := env.reply(w.asked);
    var (got, posts) := Fetch(env.maxAttempts, reply.source);
    var span := |w.books.trace.spans|;
    var w1 := w.(books := Releases(w.books));
    var w2 := Enters(w1, BailOutSpan).(asked := w.asked + 1, completions := w.completions + 1,
                                       posts := w.posts + posts);
    var w3 := Straggles(w2, reply.landing, reply.picks);
    if got.None? then (Leaves(w3, false), None)
    else
      var w4 := Charges(w3, span, LlmCall, "model", got.value.cost);
      if w4.books.ledger.Over() then (Leaves(w4, false), None)
      else (Leaves(w4, true), Some(got.value.text))
  }

  /** The run up to the point where its trace is closed. */
  function Unfinished(env: Env, c: Config, plan: Plan, question: string, inputs: State): AgentResult {
    var (w, r) := ExecAll(env, plan, Null, Start(c, question, inputs));
    if r.Ok? then AgentResult(w, r.value, None, false)
    else if r.error != OverBudget then AgentResult(w, Null, Some(Stopped(r.error)), false)
    else if !c.maxSpendMode then AgentResult(w, Last(w.state), Some(Stopped(OverBudget)), false)
    else
      var (w1, answer) := BailOut(env, w);
      if answer.None? then AgentResult(w1, Last(w.state), Some(MaxSpend(false)), false)
      else AgentResult(Puts(w1, "bailout_answer", Text(answer.value)), Text(answer.value),
                       Some(MaxSpend(answer.value != "")), true)
  }

  function RunAgent(env: Env, c: Config, plan: Plan, question: string, inputs: State): AgentResult {
    var r := Unfinished(env, c, plan, question, inputs);
    r.(world := r.world.(books := r.world.books.(trace := Finish(r.world.books.trace, r.error.Some?))))
  }

  // ---- the run on its objects ----

  /** `_bail_out` on the context of the run. */
  method BailOutOn(ctx: Runtime.StepContext) returns (answer: Option<string>)
    modifies ctx, ctx.tracer, ctx.tracer.costs
    ensures (ctx.World(), answer) == BailOut(ctx.env, old(ctx.World()))
  {
    hide Opens, Closes, Bill, Straggles, Fetch;
    var reply := ctx.env.reply(ctx.asked);
    var (got, posts) := Fetch(ctx.env.maxAttempts, reply.source);
    var _ := ctx.tracer.costs.OpenReserve();
    ctx.tracer.log := ctx.tracer.log + [Released];
    var span := ctx.tracer.EnterSpan(BailOutSpan);
    ctx.asked, ctx.completions, ctx.posts := ctx.asked + 1, ctx.completions + 1, ctx.posts + posts;
    assert ctx.World() == old(ctx.World()).(books := BailOutStarts(old(ctx.World()).books), asked := ctx.asked,
                                            completions := ctx.completions, posts := ctx.posts);
    ctx.Straggle(reply.landing, reply.picks);
    if got.None? {
      ctx.tracer.LeaveSpan(Errored);
      return None;
    }
    var raised := ctx.tracer.RecordCost(LlmCall, "model", got.value.cost, span);
    ctx.tracer.LeaveSpan(if raised then Errored else Succeeded);
    return if raised then None else Some(got.value.text);
  }

  /** `Agent.run`. */
  method Run(env: Env, c: Config, plan: Plan, question: string, inputs: State)
    returns (ctx: Runtime.StepContext, output: Value, error: Option<RunError>, bailedOut: bool)
    ensures AgentResult(ctx.World(), output, error, bailedOut) == RunAgent(env, c, plan, question, inputs)
  {
    hide ExecAll, BailOut;
    var costs := new CostTracker(c.maxUsd, c.maxCalls, ReserveUsd(c));
    var tracer := new Runtime.Tracer(costs);
    ctx := new Runtime.StepContext(env, tracer, map["question" := Text(question)] + inputs);
    assert ctx.World() == Start(c, question, inputs);
    output, error, bailedOut := Null, None, false;
    var r := ctx.RunSteps(plan);
    if r.Ok? {
      output := r.value;
    } else if r.error != OverBudget {
      error := Some(Stopped(r.error));
    } else {
      error := Some(Stopped(OverBudget));
      output := Last(ctx.state);
      if c.maxSpendMode {
        var answer := BailOutOn(ctx);
        bailedOut := answer.Some?;
        error := Some(MaxSpend(bailedOut && answer.value != ""));
        if bailedOut {
          output := Text(answer.value);
          ctx.state := ctx.state["bailout_answer" := Text(answer.value)];
        }
      }
    }
    assert AgentResult(ctx.World(), output, error, bailedOut) == Unfinished(env, c, plan, question, inputs);
    tracer.FinishRun(error.Some?);
  }

  // ---- the whole run is legal ----

  lemma StartIsSteady(c: Config, question: string, inputs: State)
    ensures var w := Start(c, question, inputs);
            Steady(w) && Sound(w.books) && OpenSpans(w.books.trace) == {0} && !w.books.trace.finished
  {
    StartSound(c.maxUsd, c.maxCalls, ReserveUsd(c));
  }

  /** The main task is back at the root of a run that began at `b0`; only the
      root and the calls in the air are still open. */
  ghost predicate AtRoot(b0: Books, b: Books, ss: seq<Straggler>) {
    && Leads(b0, b)
    && b.trace.current == 0
    && InAir(ss, b.trace)
    && OpenSpans(b.trace) - SpansOf(ss) == {0}
  }

  lemma PlanEndsAtRoot(env: Env, c: Config, plan: Plan, question: string, inputs: State)
    requires EnvOk(env)
    ensures var w0 := Start(c, question, inputs);
            var (w, r) := ExecAll(env, plan, Null, w0);
            && AtRoot(w0.books, w.books, w.stragglers) && SameCeilings(w0.books.ledger, w.books.ledger)
            && (r.Ok? ==> w.stragglers == [] && !Tripped(w.books.ledger))
  {
    hide ExecAll;
    StartIsSteady(c, question, inputs);
    ExecAllProgress(env, plan, Null, Start(c, question, inputs));
    assert SpansOf([]) == {};
  }

  /** Calls that land touch no span but their own. */
  lemma {:induction false} StragglesFrame(w: World, n: nat, picks: nat -> nat, id: nat)
    requires InAir(w.stragglers, w.books.trace)
    requires id < |w.books.trace.spans| && id !in SpansOf(w.stragglers)
    ensures var t, t' := w.books.trace, Straggles(w, n, picks).books.trace;
            |t'.spans| == |t.spans| && t'.spans[id] == t.spans[id]
    ensures SpansOf(Straggles(w, n, picks).stragglers) <= SpansOf(w.stragglers)
    decreases n
  {
    hide Moves, Lands;
    if n > 0 && w.stragglers != [] {
      var i := picks(|w.stragglers|) % |w.stragglers|;
      assert w.stragglers[i].span in SpansOf(w.stragglers);
      LandsMoves(w, w.stragglers, i);
      LandsFrame(w, w.stragglers[i]);
      SpansWithout(w.stragglers, i, w.books.trace);
      var w1 := Lands(w, w.stragglers[i]).0.(stragglers := Without(w.stragglers, i));
      MovesAir(w.books, w.stragglers, w1.books, w1.stragglers);
      StragglesFrame(w1, n - 1, picks, id);
    }
  }

  lemma MovesAir(b: Books, ss: seq<Straggler>, b': Books, ss': seq<Straggler>)
    requires Moves(b, ss, b', ss')
    ensures InAir(ss', b'.trace) && Leads(b, b') && b'.trace.current == b.trace.current
    ensures OpenSpans(b'.trace) - SpansOf(ss') == OpenSpans(b.trace) - SpansOf(ss)
    ensures SameCeilings(b.ledger, b'.ledger)
  {
  }

  /** The bail-out call starts: the reserve is released and a span opens under the root. */
  function BailOutStarts(b: Books): Books {
    Opens(Releases(b), BailOutSpan)
  }

  lemma BailOutStartLegal(b0: Books, b: Books, ss: seq<Straggler>)
    requires AtRoot(b0, b, ss)
    ensures var b1 := BailOutStarts(b);
            var id := |b.trace.spans|;
            && Leads(b0, b1) && b1.trace.current == id && |b1.trace.spans| == id + 1
            && b1.trace.spans[id] == Span(Some(0), BailOutSpan, Status.Running, None, [])
            && InAir(ss, b1.trace) && id !in SpansOf(ss)
            && OpenSpans(b1.trace) - SpansOf(ss) == {0, id}
  {
    var id := |b.trace.spans|;
    assert 0 in OpenSpans(b.trace) - SpansOf(ss);
    var b1 := Releases(b);
    LeadsStep(b, Released);
    LeadsTrans(b0, b, b1);
    EntersMoves(b1, BailOutSpan);
    LeadsTrans(b0, b1, BailOutStarts(b));
    forall i | 0 <= i < |ss| ensures ss[i].span != id { }
    assert OpenSpans(BailOutStarts(b).trace) == OpenSpans(b.trace) + {id};
  }

  /** It ends: the span is billed if an answer came back, and closes. */
  function BailOutEnds(b: Books, cost: Option<Cost>, ok: bool): Books {
    var b1 := if cost.Some? then Bill(b, b.trace.current, LlmCall, "model", cost.value) else b;
    Closes(b1, if ok then Succeeded else Errored)
  }

  lemma BailOutEndLegal(b0: Books, b: Books, ss: seq<Straggler>, cost: Option<Cost>, ok: bool)
    requires Leads(b0, b) && InAir(ss, b.trace) && ChargesNothingBack(cost)
    requires var id := b.trace.current;
             && id != 0 && Open(b.trace, id) && b.trace.spans[id].cost.None? && b.trace.spans[id].parent == Some(0)
             && id !in SpansOf(ss) && OpenSpans(b.trace) - SpansOf(ss) == {0, id}
    ensures AtRoot(b0, BailOutEnds(b, cost, ok), ss)
  {
    hide Leads;
    var id := b.trace.current;
    var status := if ok then Succeeded else Errored;
    var b1 := b;
    if cost.Some? {
      var a := Billed(id, LlmCall, "model", cost.value);
      LeadsStep(b, a);
      b1 := Apply(b, a);
      LeadsTrans(b0, b, b1);
    }
    forall i | 0 <= i < |ss| ensures ss[i].span != id && ss[i].span != 0 {
      assert ss[i].span in SpansOf(ss);
    }
    assert OpenSpans(b1.trace) == OpenSpans(b.trace);
    LeadsStep(b1, Left(status));
    var b2 := BailOutEnds(b, cost, ok);
    LeadsTrans(b0, b1, b2);
    assert OpenSpans(b2.trace) == OpenSpans(b.trace) - {id};
    assert OpenSpans(b2.trace) - SpansOf(ss) == (OpenSpans(b.trace) - SpansOf(ss)) - {id} == {0};
  }

  lemma BailOutEndsAtRoot(env: Env, b0: Books, w: World)
    requires EnvOk(env) && AtRoot(b0, w.books, w.stragglers)
    ensures var w' := BailOut(env, w).0; AtRoot(b0, w'.books, w'.stragglers)
  {
    hide Moves, Straggles, AtRoot, Leads;
    var reply := env.reply(w.asked);
    FetchOk(env.maxAttempts, reply.source);
    var (got, posts) := Fetch(env.maxAttempts, reply.source);
    var id := |w.books.trace.spans|;
    var w2 := w.(books := BailOutStarts(w.books), asked := w.asked + 1,
                 completions := w.completions + 1, posts := w.posts + posts);
    BailOutStartLegal(b0, w.books, w.stragglers);
    StragglesMoves(w2, reply.landing, reply.picks);
    var w3 := Straggles(w2, reply.landing, reply.picks);
    MovesAir(w2.books, w2.stragglers, w3.books, w3.stragglers);
    LeadsTrans(b0, w2.books, w3.books);
    StragglesFrame(w2, reply.landing, reply.picks, id);
    assert id in OpenSpans(w3.books.trace) - SpansOf(w3.stragglers);
    var cost := if got.Some? then Some(got.value.cost) else None;
    BailOutEndLegal(b0, w3.books, w3.stragglers, cost, BailOut(env, w).1.Some?);
    assert BailOut(env, w).0.books == BailOutEnds(w3.books, cost, BailOut(env, w).1.Some?);
  }

  lemma RunEndsAtRoot(env: Env, c: Config, plan: Plan, question: string, inputs: State)
    requires EnvOk(env)
    ensures var w := Unfinished(env, c, plan, question, inputs).world;
            AtRoot(Start(c, question, inputs).books, w.books, w.stragglers)
  {
    hide ExecAll, BailOut, AtRoot;
    PlanEndsAtRoot(env, c, plan, question, inputs);
    var w0 := Start(c, question, inputs);
    var (w, r) := ExecAll(env, plan, Null, w0);
    if r == Err(OverBudget) && c.maxSpendMode { BailOutEndsAtRoot(env, w0.books, w); }
  }

  ghost predicate ConservedAfter(b: Books, acts: seq<Act>) {
    && LegalRun(b, acts)
    && var p := After(b, acts);
       && IsTree(p.trace.spans)
       && TreeTotal(p.trace.spans, 0) == p.ledger.Spent()
       && OneCostEach(p.trace, p.ledger.records)
       && EventsOk(p.trace)
       && Nested(p.trace)
  }

  /** What any run of any agent did, finished or aborted, bailed out or not, is
      legal, and trace and ledger agree at every point of it. */
  lemma EveryPointConserved(env: Env, c: Config, plan: Plan, question: string, inputs: State)
    requires EnvOk(env)
    ensures var b0 := Start(c, question, inputs).books;
            var b := Unfinished(env, c, plan, question, inputs).world.books;
            && LegalRun(b0, b.log) && After(b0, b.log) == b
            && forall k :: 0 <= k <= |b.log| ==> ConservedAfter(b0, b.log[..k])
  {
    hide Unfinished, TreeTotal;
    var b0 := Start(c, question, inputs).books;
    var b := Unfinished(env, c, plan, question, inputs).world.books;
    StartIsSteady(c, question, inputs);
    RunEndsAtRoot(env, c, plan, question, inputs);
    assert Since(b0, b) == b.log;
    forall k | 0 <= k <= |b.log| ensures ConservedAfter(b0, b.log[..k]) {
      ConservedAtEveryPoint(b0, b.log, k);
      SoundAtEveryPoint(b0, b.log, k);
    }
  }

  lemma {:induction false} RunKeepsUnfinished(b: Books, acts: seq<Act>)
    requires LegalRun(b, acts)
    ensures After(b, acts).trace.finished == b.trace.finished
    ensures b.ledger.reserveOpen ==> After(b, acts).ledger.reserveOpen
    ensures After(b, acts).ledger.maxUsd == b.ledger.maxUsd && After(b, acts).ledger.reserveUsd == b.ledger.reserveUsd
    decreases acts
  {
    if acts != [] { RunKeepsUnfinished(Apply(b, acts[0]), acts[1..]); }
  }

  /** Closing the trace of a run whose main task is back at the root. */
  lemma FinishBalances(b: Books, ss: seq<Straggler>, failed: bool)
    requires Sound(b) && !b.trace.finished && InAir(ss, b.trace) && b.trace.current == 0
    requires OpenSpans(b.trace) - SpansOf(ss) == {0}
    ensures var t := Finish(b.trace, failed);
            && t.finished && IsTree(t.spans) && EventsOk(t) && Nested(t)
            && OpenSpans(t) == SpansOf(ss)
            && t.spans[0].status == (if failed then Errored else Succeeded)
            && TreeTotal(t.spans, 0) == b.ledger.Spent()
  {
    hide EventsOk, TreeTotal, OneCostEach;
    assert 0 in OpenSpans(b.trace) - SpansOf(ss);
    var status := if failed then Errored else Succeeded;
    SettleKeepsAccounts(b, 0, status);
    SettleKeepsNested(b, 0, status);
    var t := Finish(b.trace, failed);
    assert t == Settle(b.trace, 0, status).(finished := true);
    ElsewhereSame(Settle(b.trace, 0, status), t, b.ledger.records);
    RootTotalIsOwnTotal(t.spans);
    StragglersAreOpen(ss, b.trace);
    assert OpenSpans(t) == OpenSpans(b.trace) - {0};
  }

  /** Once the trace is closed, exactly the calls that a failed turn left in the
      air are still running; a run without error left none. What is open, what
      was announced and what was closed agree, and so do trace and ledger. */
  lemma FinishedRunBalances(env: Env, c: Config, plan: Plan, question: string, inputs: State)
    requires EnvOk(env)
    ensures var r := RunAgent(env, c, plan, question, inputs);
            var t := r.world.books.trace;
            && t.finished && IsTree(t.spans) && EventsOk(t) && Nested(t)
            && OpenSpans(t) == SpansOf(r.world.stragglers)
            && (OpenSpans(t) == {} <==> r.world.stragglers == [])
            && (r.error.None? ==> r.world.stragglers == [])
            && t.spans[0].status == (if r.error.Some? then Errored else Succeeded)
            && TreeTotal(t.spans, 0) == r.world.books.ledger.Spent()
  {
    hide Unfinished, TreeTotal, EventsOk, IsTree, Sound, Finish;
    var b0 := Start(c, question, inputs).books;
    var u := Unfinished(env, c, plan, question, inputs);
    StartIsSteady(c, question, inputs);
    RunEndsAtRoot(env, c, plan, question, inputs);
    UnfinishedOk(env, c, plan, question, inputs);
    LeadsKeepsSound(b0, u.world.books);
    RunKeepsUnfinished(b0, Since(b0, u.world.books));
    FinishBalances(u.world.books, u.world.stragglers, u.error.Some?);
    var ss := u.world.stragglers;
    assert ss != [] ==> ss[0].span in SpansOf(ss);
  }

  lemma StragglersAreOpen(ss: seq<Straggler>, t: Trace)
    requires InAir(ss, t)
    ensures SpansOf(ss) <= OpenSpans(t) - {0}
  {
  }

  lemma UnfinishedOk(env: Env, c: Config, plan: Plan, question: string, inputs: State)
    requires EnvOk(env)
    ensures var u := Unfinished(env, c, plan, question, inputs);
            u.error.None? ==> u.world.stragglers == []
  {
    hide ExecAll, BailOut, AtRoot;
    PlanEndsAtRoot(env, c, plan, question, inputs);
  }

  // ---- after the ceiling is crossed ----

  lemma TripStays(b: Books, a: Act)
    requires Legal(b, a) && Tripped(b.ledger) && !Apply(b, a).ledger.reserveOpen
    ensures Tripped(Apply(b, a).ledger)
  {
    if a.Billed? {
      TotalSnoc(b.ledger.records, Record(a.callKind, a.name, a.cost, a.span));
    }
  }

  /** The value under "last", if there is one. */
  predicate IsLast(v: Value, s: State) {
    v == if "last" in s then s["last"] else Null
  }

  /** What a run answers. One that ended well answers with what its last step
      handed on, which is under "last"; one that its ceilings stopped with the
      last value there was, unless the bail-out bought a text: then with that
      text, which it does exactly if the one completion came and the total kept
      to the ceiling with the reserve. Any other error leaves no answer. */
  lemma AnswerOfRun(env: Env, c: Config, plan: Plan, question: string, inputs: State)
    requires EnvOk(env)
    ensures var r := RunAgent(env, c, plan, question, inputs);
            var (w, stop) := ExecAll(env, plan, Null, Start(c, question, inputs));
            var got := Fetch(env.maxAttempts, env.reply(w.asked).source).0;
            && (plan == [] ==> r.error.None? && r.output == Null)
            && (r.error.None? && plan != [] ==> IsLast(r.output, r.world.state))
            && (r.error.Some? && stop != Err(OverBudget) ==> r.output == Null)
            && (stop == Err(OverBudget) && !r.bailedOut ==> IsLast(r.output, r.world.state))
            && (r.bailedOut <==>
                  && stop == Err(OverBudget) && c.maxSpendMode && got.Some?
                  && (c.maxUsd.Some? ==> r.world.books.ledger.Spent() <= c.maxUsd.value + ReserveUsd(c)))
            && (r.bailedOut ==> r.output == Text(got.value.text))
  {
    hide ExecAll, BailOut, Finish, AtRoot, ReserveUsd, Total, Fetch;
    var w0 := Start(c, question, inputs);
    PlanEndsAtRoot(env, c, plan, question, inputs);
    if plan == [] { NoSteps(env, Null, w0); } else { Stopping.PlanAnswerIsLast(env, plan, Null, w0); }
    var (w, stop) := ExecAll(env, plan, Null, w0);
    BailOutAnswers(env, w);
    var answer := BailOut(env, w).1;
    var r := RunAgent(env, c, plan, question, inputs);
    assert r.bailedOut ==> answer.Some? && r.output == Text(answer.value);
  }

  /** A run starts with its inputs in state, and the question where none of them
      takes its name; with nothing recorded, the ceilings of its configuration,
      and a reserve only in the mode that may bail out. */
  lemma StartIs(c: Config, question: string, inputs: State)
    ensures var w := Start(c, question, inputs);
            && w.state.Keys == inputs.Keys + {"question"}
            && (forall k :: k in inputs ==> w.state[k] == inputs[k])
            && ("question" !in inputs ==> w.state["question"] == Text(question))
            && w.books.ledger.records == [] && !w.books.ledger.reserveOpen
            && w.books.ledger.maxUsd == c.maxUsd && w.books.ledger.maxCalls == c.maxCalls
            && var reserve := w.books.ledger.reserveUsd;
               && (!c.maxSpendMode ==> reserve == 0.0)
               && (c.maxSpendMode && c.bailoutReserve.Some? ==>
                     reserve == if c.bailoutReserve.value >= 0.0 then c.bailoutReserve.value else 0.0)
               && (c.maxSpendMode && c.bailoutReserve.None? && c.maxUsd.None? ==> reserve == 0.05)
               && (c.maxSpendMode && c.bailoutReserve.None? && c.maxUsd.Some? ==>
                     && reserve >= 0.02 && 20.0 * reserve >= c.maxUsd.value
                     && (reserve == 0.02 || 20.0 * reserve == c.maxUsd.value))
  {
  }

  lemma NoSteps(env: Env, acc: Value, w: World)
    ensures ExecAll(env, [], acc, w) == (w, Ok(acc))
  {
  }

  lemma BailOutAnswers(env: Env, w: World)
    ensures var (w', answer) := BailOut(env, w);
            var got := Fetch(env.maxAttempts, env.reply(w.asked).source).0;
            var l, l' := w.books.ledger, w'.books.ledger;
            && w'.state == w.state
            && (answer.Some? ==> got.Some? && answer.value == got.value.text)
            && (answer.Some? <==> got.Some? && (l.maxUsd.Some? ==> l'.Spent() <= l.maxUsd.value + l.reserveUsd))
  {
    hide Straggles, Fetch, Enter, Leave, SetCost, Total;
    var reply := env.reply(w.asked);
    var (got, posts) := Fetch(env.maxAttempts, reply.source);
    var w2 := w.(books := BailOutStarts(w.books), asked := w.asked + 1,
                 completions := w.completions + 1, posts := w.posts + posts);
    StragglesElse(w2, reply.landing, reply.picks);
    StragglesSpends(w2, reply.landing, reply.picks);
  }

  /** In a run that has not released the reserve, nothing opens after the ledger
      has tripped: no step, no model call, no tool, not even a bail-out. */
  lemma {:induction false} NothingOpensAfterTrip(b: Books, acts: seq<Act>, k: nat, j: nat)
    requires LegalRun(b, acts) && !After(b, acts).ledger.reserveOpen
    requires k <= j < |acts| && LegalRun(b, acts[..k]) && Tripped(After(b, acts[..k]).ledger)
    ensures !acts[j].Opened? && !acts[j].Spawned?
    decreases acts
  {
    RunKeepsUnfinished(Apply(b, acts[0]), acts[1..]);
    var b1 := Apply(b, acts[0]);
    if k > 0 {
      assert acts[..k][1..] == acts[1..][..k - 1];
      NothingOpensAfterTrip(b1, acts[1..], k - 1, j - 1);
    } else if j > 0 {
      assert acts[..0] == [];
      TripStays(b, acts[0]);
      assert acts[1..][..0] == [];
      NothingOpensAfterTrip(b1, acts[1..], 0, j - 1);
    } else {
      assert acts[..0] == [];
    }
  }

  /** And no step or loop ever opens while the pre-flight check refuses. */
  lemma {:induction false} NoStepWhenRefused(b: Books, acts: seq<Act>, k: nat)
    requires LegalRun(b, acts) && k < |acts| && acts[k].Opened? && acts[k].kind in {StepSpan, LoopSpan}
    ensures LegalRun(b, acts[..k]) && !After(b, acts[..k]).ledger.Refuses()
    decreases acts
  {
    if k > 0 {
      NoStepWhenRefused(Apply(b, acts[0]), acts[1..], k - 1);
      assert acts[..k][1..] == acts[1..][..k - 1];
    } else {
      assert acts[..0] == [];
    }
  }

  predicate Opening(a: Act) {
    a.Opened? || a.Spawned?
  }

  /** In the figures of the log: a step or loop opens only while the calls and the
      money billed are below the ceilings, and once more money is billed than
      allowed nothing opens but, if `released`, one call for a bail-out, right
      after the reserve was released. */
  ghost predicate StopsInTime(c: Config, acts: seq<Act>, released: bool) {
    && (forall k, j | 0 <= k <= j < |acts| && Opening(acts[j]) ::
          c.maxUsd.Some? && Bills(acts[..k]) > 0 && BilledUsd(acts[..k]) > c.maxUsd.value ==>
            released && acts[j] == Opened(BailOutSpan) && j > 0 && acts[j - 1] == Released
            && forall i :: j < i < |acts| ==> !Opening(acts[i]))
    && (forall k | 0 <= k < |acts| && acts[k].Opened? && acts[k].kind in {StepSpan, LoopSpan} ::
          && (c.maxCalls.Some? ==> Bills(acts[..k]) < c.maxCalls.value)
          && (c.maxUsd.Some? ==> BilledUsd(acts[..k]) < c.maxUsd.value))
  }

  /** What the ledger of a run shows after `k` of its actions, while the reserve
      is not open. */
  lemma LedgerAt(c: Config, question: string, inputs: State, acts: seq<Act>, k: nat)
    requires LegalRun(Start(c, question, inputs).books, acts) && k <= |acts| && Released !in acts[..k]
    ensures var b0 := Start(c, question, inputs).books;
            && LegalRun(b0, acts[..k])
            && var l := After(b0, acts[..k]).ledger;
               && !l.reserveOpen && l.maxCalls == c.maxCalls && l.maxUsd == c.maxUsd
               && |l.records| == Bills(acts[..k]) && l.Spent() == BilledUsd(acts[..k])
  {
    StartIsSteady(c, question, inputs);
    SoundAtEveryPoint(Start(c, question, inputs).books, acts, k);
    LedgerIsLog(Start(c, question, inputs).books, acts[..k]);
  }

  /** Every run of a plan stops in time, whatever the plan and the outside. */
  lemma PlanStopsInTime(env: Env, c: Config, plan: Plan, question: string, inputs: State)
    requires EnvOk(env)
    ensures var b0 := Start(c, question, inputs).books;
            var b := ExecAll(env, plan, Null, Start(c, question, inputs)).0.books;
            && LegalRun(b0, b.log) && After(b0, b.log) == b
            && Released !in b.log && StopsInTime(c, b.log, false)
  {
    hide ExecAll, LegalRun, After, Bills, BilledUsd;
    var b0 := Start(c, question, inputs).books;
    var b := ExecAll(env, plan, Null, Start(c, question, inputs)).0.books;
    PlanEndsAtRoot(env, c, plan, question, inputs);
    var acts := b.log;
    assert Since(b0, b) == acts;
    LedgerIsLog(b0, acts);
    forall k, j | 0 <= k <= j < |acts| && Opening(acts[j])
      ensures !(c.maxUsd.Some? && Bills(acts[..k]) > 0 && BilledUsd(acts[..k]) > c.maxUsd.value)
    {
      LedgerAt(c, question, inputs, acts, k);
      var l := After(b0, acts[..k]).ledger;
      assert Bills(acts[..k]) > 0 ==> l.records != [];
      if Tripped(l) { NothingOpensAfterTrip(b0, acts, k, j); }
    }
    forall k | 0 <= k < |acts| && acts[k].Opened? && acts[k].kind in {StepSpan, LoopSpan}
      ensures c.maxCalls.Some? ==> Bills(acts[..k]) < c.maxCalls.value
      ensures c.maxUsd.Some? ==> BilledUsd(acts[..k]) < c.maxUsd.value
    {
      LedgerAt(c, question, inputs, acts, k);
      NoStepWhenRefused(b0, acts, k);
    }
  }

  /** `more` follows `log`, and nothing opens in it. */
  predicate OnlyCloses(log: seq<Act>, more: seq<Act>) {
    log <= more && forall i :: |log| <= i < |more| ==> !Opening(more[i])
  }

  lemma {:induction false} StragglesOpenNothing(w: World, n: nat, picks: nat -> nat)
    ensures OnlyCloses(w.books.log, Straggles(w, n, picks).books.log)
    decreases n
  {
    if n > 0 && w.stragglers != [] {
      var i := picks(|w.stragglers|) % |w.stragglers|;
      StragglesOpenNothing(Lands(w, w.stragglers[i]).0.(stragglers := Without(w.stragglers, i)), n - 1, picks);
    }
  }

  lemma BailOutOpensOne(env: Env, w: World)
    ensures OnlyCloses(w.books.log + [Released, Opened(BailOutSpan)], BailOut(env, w).0.books.log)
  {
    hide Straggles, Fetch;
    var reply := env.reply(w.asked);
    var (got, posts) := Fetch(env.maxAttempts, reply.source);
    var w2 := w.(books := BailOutStarts(w.books), asked := w.asked + 1,
                 completions := w.completions + 1, posts := w.posts + posts);
    StragglesOpenNothing(w2, reply.landing, reply.picks);
    assert w2.books.log == w.books.log + [Released, Opened(BailOutSpan)];
  }

  /** A bail-out after a run that stopped in time. */
  lemma BailOutInTime(c: Config, log: seq<Act>, more: seq<Act>)
    requires StopsInTime(c, log, false)
    requires OnlyCloses(log + [Released, Opened(BailOutSpan)], more)
    ensures StopsInTime(c, more, true)
  {
    hide Bills, BilledUsd;
    var start, n := log + [Released, Opened(BailOutSpan)], |log|;
    assert log <= more && more[n] == Released && more[n + 1] == Opened(BailOutSpan);
    forall k | 0 <= k <= n ensures more[..k] == log[..k] {
      assert more[..|start|] == start;
    }
    forall j | n <= j < |more| && j != n + 1 ensures !Opening(more[j]) {
    }
    forall i | n + 1 < i < |more| ensures !Opening(more[i]) {
    }
  }

  lemma InTimeAnyway(c: Config, log: seq<Act>)
    requires StopsInTime(c, log, false)
    ensures StopsInTime(c, log, true)
  {
    hide Bills, BilledUsd;
  }

  /** And so does every whole run, whose bail-out opens one span and no more. */
  lemma RunStopsInTime(env: Env, c: Config, plan: Plan, question: string, inputs: State)
    requires EnvOk(env)
    ensures var b0 := Start(c, question, inputs).books;
            var b := Unfinished(env, c, plan, question, inputs).world.books;
            LegalRun(b0, b.log) && After(b0, b.log) == b && StopsInTime(c, b.log, true)
  {
    hide ExecAll, BailOut, LegalRun, After, StopsInTime, OnlyCloses;
    var (w, r) := ExecAll(env, plan, Null, Start(c, question, inputs));
    PlanStopsInTime(env, c, plan, question, inputs);
    EveryPointConserved(env, c, plan, question, inputs);
    BailOutOpensOne(env, w);
    InTimeAnyway(c, w.books.log);
    BailOutInTime(c, w.books.log, BailOut(env, w).0.books.log);
  }

  // ---- what a run spends ----

  function BailOutPrice(env: Env, w: World): real {
    var got := Fetch(env.maxAttempts, env.reply(w.asked).source).0;
    if got.Some? then got.value.cost.usd else 0.0
  }

  lemma BailOutSpends(env: Env, w: World)
    ensures var (w', answer) := BailOut(env, w);
            && Committed(w') == Committed(w) + BailOutPrice(env, w)
            && SameCeilings(w.books.ledger.OpenReserve(), w'.books.ledger)
            && (answer.Some? ==> !w'.books.ledger.Over())
  {
    hide Straggles, Fetch, Enter, Leave, Attach, Settle, Total, Outstanding, SetCost;
    var reply := env.reply(w.asked);
    var (got, posts) := Fetch(env.maxAttempts, reply.source);
    var w2 := w.(books := BailOutStarts(w.books), asked := w.asked + 1,
                 completions := w.completions + 1, posts := w.posts + posts);
    StragglesSpends(w2, reply.landing, reply.picks);
    var w3 := Straggles(w2, reply.landing, reply.picks);
    if got.Some? { ChargesSpends(w3, |w.books.trace.spans|, LlmCall, "model", got.value.cost); }
  }

  /** The ceiling over every run with one: a run without error kept to it; a
      run that bailed out kept to ceiling and reserve, whatever its plan had
      overshot; and no run goes over by more than its last request and the one
      call of the bail-out, calls still in the air included. */
  lemma SpendCeiling(env: Env, c: Config, plan: Plan, question: string, inputs: State)
    requires EnvOk(env) && c.maxUsd.Some?
    ensures var r := RunAgent(env, c, plan, question, inputs);
            var (w, _) := ExecAll(env, plan, Null, Start(c, question, inputs));
            var spent := r.world.books.ledger.Spent();
            && (r.error.None? ==> spent <= Max(0.0, c.maxUsd.value))
            && (r.bailedOut ==> spent <= c.maxUsd.value + ReserveUsd(c))
            && (r.bailedOut ==> r.world.books.ledger.ReserveSpent() <= ReserveUsd(c))
            && Committed(r.world) <= Max(0.0, c.maxUsd.value) + LastPrice(env, w)
                 + (if r.error.Some? && r.error.value.MaxSpend? then BailOutPrice(env, w) else 0.0)
  {
    hide ExecAll, BailOut, AtRoot, Price, BailOutPrice, ReserveUsd, Finish, Total, Outstanding;
    var w0 := Start(c, question, inputs);
    StartIsSteady(c, question, inputs);
    PlanEndsAtRoot(env, c, plan, question, inputs);
    ExecAllBounded(env, plan, Null, w0);
    var (w, r) := ExecAll(env, plan, Null, w0);
    if r.Ok? {
      SteadyIsWithin(w);
    } else {
      BailOutSpends(env, w);
      var (w', answer) := BailOut(env, w);
      assert w'.books.ledger.Limit() == Some(c.maxUsd.value + ReserveUsd(c));
      assert answer.Some? ==> w'.books.ledger.Spent() <= c.maxUsd.value + ReserveUsd(c);
      ReserveIsNoDebt(c);
    }
  }

  // ---- how much a run asks for ----

  lemma BailOutMade(env: Env, w: World)
    ensures var w' := BailOut(env, w).0;
            Made(env, w, w', 1) && w'.completions == w.completions + 1 && w'.state == w.state
  {
    hide Straggles;
    var reply := env.reply(w.asked);
    if reply.source.FromProvider? { Retry.AttemptsBounded(env.maxAttempts, reply.source.tries); }
    var (got, posts) := Fetch(env.maxAttempts, reply.source);
    var w2 := w.(books := BailOutStarts(w.books), asked := w.asked + 1,
                 completions := w.completions + 1, posts := w.posts + posts);
    StragglesElse(w2, reply.landing, reply.picks);
  }

  /** A run makes at most the static budget of its plan in completions, one more
      if and only if it tried to bail out, and at most the allowed attempts for
      each. Its final keys are accounted for. */
  lemma WorkOfRun(env: Env, c: Config, plan: Plan, question: string, inputs: State)
    ensures var r := RunAgent(env, c, plan, question, inputs);
            var extra := if r.error.Some? && r.error.value.MaxSpend? then 1 else 0;
            && extra <= r.world.completions <= PlanBudget(plan) + extra
            && r.world.posts <= Tries(env) * r.world.completions
            && r.world.state.Keys <= inputs.Keys + {"question"} + PlanWrites(plan) + RUNTIME_KEYS
                 + (if r.bailedOut then {"bailout_answer"} else {})
            && inputs.Keys <= r.world.state.Keys
  {
    hide ExecAll, BailOut, PlanBudget, Finish;
    var w0 := Start(c, question, inputs);
    ExecAllMade(env, plan, Null, w0);
    ExecAllKeys(env, plan, Null, w0);
    var (w, r) := ExecAll(env, plan, Null, w0);
    BailOutMade(env, w);
    MadeTrans(env, w0, w, BailOut(env, w).0, PlanBudget(plan), 1);
  }

  /** A run that was stopped by its ceilings had used one of them up. */
  lemma CeilingIsUsedUp(env: Env, c: Config, plan: Plan, question: string, inputs: State)
    requires EnvOk(env)
    ensures var (w, stop) := ExecAll(env, plan, Null, Start(c, question, inputs));
            stop == Err(OverBudget) ==>
              || (c.maxCalls.Some? && |w.books.ledger.records| >= c.maxCalls.value)
              || (c.maxUsd.Some? && w.books.ledger.Spent() >= c.maxUsd.value)
  {
    hide ExecAll, AtRoot;
    StartIsSteady(c, question, inputs);
    PlanEndsAtRoot(env, c, plan, question, inputs);
    Stopping.ExecAllHonest(env, plan, Null, Start(c, question, inputs));
  }

  /** What the error says: a budget error is a ceiling reached without the
      bail-out mode, a max-spend error one reached with it; a max-spend error
      claims an answer exactly when there is a text that is not empty. */
  lemma ErrorsMean(env: Env, c: Config, plan: Plan, question: string, inputs: State)
    ensures var r := RunAgent(env, c, plan, question, inputs);
            var stop := ExecAll(env, plan, Null, Start(c, question, inputs)).1;
            && (r.error.None? <==> stop.Ok?)
            && (r.error.Some? ==>
                  && (Classify(r.error.value) == MaxSpendKind <==> stop == Err(OverBudget) && c.maxSpendMode)
                  && (Classify(r.error.value) == BudgetKind <==> stop == Err(OverBudget) && !c.maxSpendMode)
                  && (Classify(r.error.value) == ProviderKind <==> stop == Err(Provider))
                  && (Classify(r.error.value) == PlanKind <==>
                        || stop.error.Unresolved? || stop.error.UnknownTool?
                        || (stop.error.BadCondition?
                            && (stop.error.fault.UnknownName? || stop.error.fault.Forbidden?
                                || stop.error.fault == Operation(true))))
                  && Classify(r.error.value) != ApiKind
                  && (r.error.value == MaxSpend(true) <==> r.bailedOut && r.output != Text("")))
            && (r.bailedOut ==>
                  && r.error.Some? && c.maxSpendMode && r.output.Text?
                  && "bailout_answer" in r.world.state && r.world.state["bailout_answer"] == r.output)
  {
    hide ExecAll, BailOut, Finish;
  }
}
