/** What running a plan does (`rsi_arena/agent/steps.py`, `agent/tools.py`).

    The model, the tools and the event loop are an oracle: `Env.reply` gives, for
    the n-th request of the run, whatever the outside answers. Calls that the
    model asks for in one turn run concurrently; the oracle picks the order in
    which they finish. When one of them raises, `asyncio.gather` raises at once
    and leaves the others running: they become `stragglers`, which land later. */
module Interpreter {
  import opened Prelude
  import opened Costs
  import opened Trace
  import opened Books
  import opened Template
  import opened Plans
  import Retry

  // ---- the outside ----

  datatype ToolAnswer = ToolAnswer(ok: bool, cost: Option<Cost>, output: Value, error: string)

  datatype Request = Request(tool: string, answer: ToolAnswer)

  /** A parsed response. `json` is its text parsed, if it parses. */
  datatype Completion = Completion(
    cost: Cost,
    text: string,
    json: Option<Value>,
    citations: seq<Value>,
    calls: seq<Request>)

  /** Where a completion comes from: the cache, or attempts under the retry policy. */
  datatype Source = FromCache(hit: Completion) | FromProvider(tries: nat -> Retry.Try<Completion>)

  /** `picks` chooses which concurrent call finishes next, `landing` says how
      many stragglers land before the run notices that one of them raised. */
  datatype Reply = Reply(source: Source, answer: ToolAnswer, picks: nat -> nat, landing: nat)

  datatype Env = Env(
    reply: nat -> Reply,
    tools: set<string>,
    listening: bool,
    maxAttempts: int,
    py: Python,
    show: Value -> string,
    attrs: Attributes)

  // ---- the state of a run ----

  datatype Straggler = Straggler(span: nat, tool: string, answer: ToolAnswer)

  datatype World = World(
    state: State,
    books: Books,
    asked: nat,          // requests made of the oracle
    completions: nat,    // calls of `LLMClient.complete` and `stream`
    posts: nat,          // HTTP posts those made
    stragglers: seq<Straggler>)

  datatype Failure =
    | OverBudget
    | Unresolved(path: Path)
    | BadCondition(fault: Fault)
    | Provider
    | UnknownTool
    | ToolRefused
    | BadJson
    | BadCitations
    | NoCompletion

  type Res<T> = Result<T, Failure>

  // ---- one action on the books each ----

  function Enters(w: World, kind: SpanKind): World {
    w.(books := Opens(w.books, kind))
  }

  function Leaves(w: World, ok: bool): World {
    w.(books := Closes(w.books, if ok then Succeeded else Errored))
  }

  function Charges(w: World, span: nat, kind: Kind, name: string, cost: Cost): World {
    w.(books := Bill(w.books, span, kind, name, cost))
  }

  function Puts(w: World, key: string, v: Value): World {
    w.(state := w.state[key := v])
  }

  /** `StepContext.set`. */
  function SetOutput(w: World, key: string, v: Value): World {
    var w1 := Puts(w, "last", v);
    if key == "" then w1 else Puts(w1, key, v)
  }

  function Last(state: State): Value {
    if "last" in state then state["last"] else Null
  }

  // ---- one completion ----

  /** The end of `complete`: the completion or a provider failure, and the posts. */
  function Fetch(attempts: int, s: Source): (Option<Completion>, nat) {
    match s
    case FromCache(hit) => (Some(hit.(cost := Cost(0.0, true))), 0)
    case FromProvider(tries) =>
      var (verdict, posts) := Retry.Outcome(attempts, tries, 1);
      (if verdict.Returned? then Some(verdict.value) else None, posts)
  }

  /** A call of the model inside a span of its own. The cost is recorded while
      the span is current, and a crossed ceiling raises from there. */
  function Ask(env: Env, kind: SpanKind, attempts: int, w: World): (World, Res<Completion>) {
    var span := |w.books.trace.spans|;
    var (got, posts) := Fetch(attempts, env.reply(w.asked).source);
    var w1 := Enters(w, kind).(asked := w.asked + 1, completions := w.completions + 1,
                               posts := w.posts + posts);
    if got.None? then (Leaves(w1, false), Err(Provider))
    else
      var w2 := Charges(w1, span, LlmCall, "model", got.value.cost);
      if w2.books.ledger.Over() then (Leaves(w2, false), Err(OverBudget))
      else (Leaves(w2, true), Ok(got.value))
  }

  // ---- tools ----

  /** Only a cost that is not zero, or a cached one, reaches the ledger. */
  predicate Billable(cost: Option<Cost>) {
    cost.Some? && (cost.value.usd != 0.0 || cost.value.cached)
  }

  /** A concurrent call returns: it is billed, then its span closes. True when
      billing it crossed the ceiling. */
  function Lands(w: World, s: Straggler): (World, bool) {
    var w1 := if Billable(s.answer.cost)
              then Charges(w, s.span, ToolCharge, s.tool, s.answer.cost.value) else w;
    var raised := Billable(s.answer.cost) && w1.books.ledger.Over();
    var status := if s.answer.ok && !raised then Succeeded else Errored;
    (w1.(books := Settles(w1.books, s.span, status)), raised)
  }

  /** Every known tool of the turn opens its span before any of them returns. */
  function Spawns(w: World, tools: set<string>, calls: seq<Request>): (World, seq<Straggler>)
    decreases calls
  {
    if calls == [] then (w, [])
    else if calls[0].tool !in tools then Spawns(w, tools, calls[1..])
    else
      var span := |w.books.trace.spans|;
      var (w1, rest) := Spawns(w.(books := Spawn(w.books)), tools, calls[1..]);
      (w1, [Straggler(span, calls[0].tool, calls[0].answer)] + rest)
  }

  /** The calls in the air return in the order the oracle picks, until none is
      left or one of them raises; what is left then straggles. */
  function Drains(w: World, inAir: seq<Straggler>, picks: nat -> nat): (World, bool)
    decreases |inAir|
  {
    if inAir == [] then (w, false)
    else
      var i := picks(|inAir|) % |inAir|;
      var (w1, raised) := Lands(w, inAir[i]);
      if raised then (w1.(stragglers := w1.stragglers + Without(inAir, i)), true)
      else Drains(w1, Without(inAir, i), picks)
  }

  /** `n` stragglers land while the main task waits or unwinds. */
  function Straggles(w: World, n: nat, picks: nat -> nat): World
    decreases n
  {
    if n == 0 || w.stragglers == [] then w
    else
      var i := picks(|w.stragglers|) % |w.stragglers|;
      var w1 := Lands(w, w.stragglers[i]).0;
      Straggles(w1.(stragglers := Without(w.stragglers, i)), n - 1, picks)
  }

  predicate AllKnown(tools: set<string>, calls: seq<Request>) {
    forall i :: 0 <= i < |calls| ==> calls[i].tool in tools
  }

  /** `Toolbox.call_many`. */
  function Batch(env: Env, w: World, calls: seq<Request>, reply: Reply): (World, Res<()>) {
    var (w1, inAir) := Spawns(w, env.tools, calls);
    if !AllKnown(env.tools, calls) then
      (Straggles(w1.(stragglers := w1.stragglers + inAir), reply.landing, reply.picks), Err(UnknownTool))
    else
      var (w2, raised) := Drains(w1, inAir, reply.picks);
      if raised then (Straggles(w2, reply.landing, reply.picks), Err(OverBudget)) else (w2, Ok(()))
  }

  // ---- steps ----

  predicate OffersTools(env: Env, tools: seq<string>) {
    tools != [] && (if tools == ["*"] then env.tools != {} else exists i :: 0 <= i < |tools| && tools[i] in env.tools)
  }

  /** The tool loop of a prompt, `turns` of it left. */
  function Turns(env: Env, turns: nat, last: Option<Completion>, w: World): (World, Res<Completion>)
    decreases turns
  {
    if turns == 0 then (w, if last.None? then Err(NoCompletion) else Ok(last.value))
    else
      var reply := env.reply(w.asked);
      var (w1, c) := Ask(env, ModelSpan, env.maxAttempts, w);
      if c.Err? || c.value.calls == [] then (w1, c)
      else
        var (w2, b) := Batch(env, w1, c.value.calls, reply);
        if b.Err? then (w2, Err(b.error)) else Turns(env, turns - 1, Some(c.value), w2)
  }

  /** `ctx.state.setdefault("citations", []).extend(...)`. */
  function Cites(w: World, citations: seq<Value>): (World, Res<()>) {
    if citations == [] then (w, Ok(()))
    else if "citations" !in w.state then (Puts(w, "citations", List(citations)), Ok(()))
    else if w.state["citations"].List? then
      (Puts(w, "citations", List(w.state["citations"].items + citations)), Ok(()))
    else (w, Err(BadCitations))
  }

  function Answer(c: Completion, schema: bool): Res<Value> {
    if !schema then Ok(Text(c.text))
    else if c.json.Some? then Ok(c.json.value)
    else Err(BadJson)
  }

  /** A streamed prompt is one call that is not retried. */
  function RunPrompt(env: Env, step: Step, w: World): (World, Res<Value>)
    requires step.Prompt?
  {
    var rendered := Render(step.prompt, w.state, env.show, env.attrs);
    if rendered.Err? then (w, Err(Unresolved(rendered.error)))
    else if step.stream && !OffersTools(env, step.tools) && env.listening then
      var (w1, c) := Ask(env, ModelSpan, 1, w);
      (w1, if c.Err? then Err(c.error) else Answer(c.value, step.schema))
    else
      var (w1, c) := Turns(env, AtLeast0(step.maxToolIterations + 1), None, w);
      if c.Err? then (w1, Err(c.error))
      else
        var (w2, cited) := Cites(w1, c.value.citations);
        (w2, if cited.Err? then Err(cited.error) else Answer(c.value, step.schema))
  }

  function RenderArgs(args: seq<Arg>, env: Env, state: State): Option<Path>
    decreases args
  {
    if args == [] then None
    else
      var here := match args[0]
        case Templated(p) =>
          var r := Render(p, state, env.show, env.attrs);
          if r.Err? then Some(r.error) else None
        case Container(inner) => RenderArgs(inner, env, state)
        case Literal(_) => None;
      if here.Some? then here else RenderArgs(args[1..], env, state)
  }

  /** A tool called from the plan runs in the main task, in a span of its own. */
  function RunTool(env: Env, step: Step, w: World): (World, Res<Value>)
    requires step.Tool?
  {
    var missing := RenderArgs(step.args, env, w.state);
    if missing.Some? then (w, Err(Unresolved(missing.value)))
    else if step.tool !in env.tools then (w, Err(UnknownTool))
    else
      var span := |w.books.trace.spans|;
      var a := env.reply(w.asked).answer;
      var w1 := Enters(w, ToolSpan).(asked := w.asked + 1);
      var w2 := if Billable(a.cost) then Charges(w1, span, ToolCharge, step.tool, a.cost.value) else w1;
      var raised := Billable(a.cost) && w2.books.ledger.Over();
      (Leaves(w2, a.ok && !raised),
       if raised then Err(OverBudget)
       else if !a.ok && !step.failOk then Err(ToolRefused)
       else Ok(if a.ok then a.output else Dict(map["error" := Text(a.error)])))
  }

  function Holds(env: Env, c: Condition, state: State): Res<bool> {
    var v := Eval(c.expr, state, env.py);
    if v.Err? then Err(BadCondition(v.error)) else Ok(Truthy(v.value))
  }

  /** A verdict is read from a parsed dict; anything else means "not done". */
  function Verdict(c: Completion): bool {
    c.json.Some? && c.json.value.Dict? && "done" in c.json.value.entries
    && Truthy(c.json.value.entries["done"])
  }

  function AsksToStop(env: Env, p: Pattern, w: World): (World, Res<bool>) {
    if Render(p, w.state, env.show, env.attrs).Err? then
      (Leaves(Enters(w, StopCheckSpan), false),
       Err(Unresolved(Render(p, w.state, env.show, env.attrs).error)))
    else
      var (w1, c) := Ask(env, StopCheckSpan, env.maxAttempts, w);
      (w1, if c.Err? then Err(c.error) else Ok(Verdict(c.value)))
  }

  function ShouldStop(env: Env, step: Step, w: World): (World, Res<bool>)
    requires step.Loop?
  {
    var now := if step.until.None? then Ok(false) else Holds(env, step.until.value, w.state);
    if now.Err? || now.value || step.untilPrompt.None? then (w, now)
    else AsksToStop(env, step.untilPrompt.value, w)
  }

  const COUNTERS: seq<string> := ["loop_index", "loop_iteration", "loop_results"]

  /** The saved counters that were set to something come back. */
  function Restores(before: State, keys: seq<string>, s: State): State {
    if keys == [] then s
    else
      var k := keys[0];
      Restores(before, keys[1..], if k in before && before[k] != Null then s[k := before[k]] else s)
  }

  function Collected(step: Step, results: seq<Value>): Value
    requires step.Loop?
  {
    if step.collect then List(results) else if results == [] then Null else results[|results| - 1]
  }

  /** The iterations of a loop from `index` on. */
  function Iterations(env: Env, step: Step, index: nat, results: seq<Value>, w: World): (World, Res<seq<Value>>)
    requires step.Loop?
    decreases step, 1, step.maxLoops - index
  {
    if index >= step.maxLoops then (w, Ok(results))
    else
      var w1 := Puts(Puts(w, "loop_index", Num(index as real)), "loop_iteration", Num((index + 1) as real));
      var (w2, r) := ExecAll(env, step.steps, Null, Enters(w1, IterationSpan));
      if r.Err? then (Leaves(w2, false), Err(r.error))
      else
        var results' := results + [r.value];
        var w3 := Puts(Leaves(w2, true), "loop_results", List(results'));
        var (w4, stop) := ShouldStop(env, step, w3);
        if stop.Err? then (w4, Err(stop.error))
        else if stop.value then (w4, Ok(results'))
        else Iterations(env, step, index + 1, results', w4)
  }

  function RunLoop(env: Env, step: Step, w: World): (World, Res<Value>)
    requires step.Loop?
    decreases step, 2
  {
    var (w1, r) := Iterations(env, step, 0, [], Puts(w, "loop_results", List([])));
    if r.Err? then (w1, Err(r.error))
    else (w1.(state := Restores(w.state, COUNTERS, w1.state)), Ok(Collected(step, r.value)))
  }

  function RunStep(env: Env, step: Step, w: World): (World, Res<Value>)
    decreases step, 3
  {
    match step
    case Prompt(_, _, _, _, _, _) => RunPrompt(env, step, w)
    case Tool(_, _, _, _) => RunTool(env, step, w)
    case Loop(_, _, _, _, _, _) => RunLoop(env, step, w)
  }

  /** `Step.execute`: the skip test, the pre-flight check, the span, the run,
      and the output into state. */
  function Exec(env: Env, step: Step, w: World): (World, Res<Value>)
    decreases step, 4
  {
    var skip := if step.head.skipIf.None? then Ok(false) else Holds(env, step.head.skipIf.value, w.state);
    if skip.Err? then (w, Err(skip.error))
    else if skip.value then
      (w.(books := Closes(Opens(w.books, SkippedStep), Skipped)), Ok(Last(w.state)))
    else if w.books.ledger.Refuses() then (w, Err(OverBudget))
    else
      var w1 := Enters(w, if step.Loop? then LoopSpan else StepSpan);
      var (w2, r) := RunStep(env, step, w1);
      var w3 := Leaves(w2, r.Ok?);
      (if r.Ok? then SetOutput(w3, step.head.outputKey, r.value) else w3, r)
  }

  /** `Plan.execute`, and the body of a loop. */
  function ExecAll(env: Env, plan: Plan, acc: Value, w: World): (World, Res<Value>)
    decreases plan, 0
  {
    if plan == [] then (w, Ok(acc))
    else
      var (w1, r) := Exec(env, plan[0], w);
      if r.Err? then (w1, r) else ExecAll(env, plan[1..], r.value, w1)
  }
}
