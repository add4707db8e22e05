/** What prompts, tools, loops and stop questions hand on, and what their spans
    say of them. */
module Answers {
  import opened Prelude
  import opened Costs
  import opened Trace
  import opened Books
  import opened Template
  import opened Plans
  import opened Interpreter
  import opened Conservation
  import opened Effort
  import opened Stopping
  import Retry

  // ---- one completion ----

  /** A cached completion costs nothing and posts nothing. Any other is the one
      that the first attempt to succeed brought, with nothing but retryable
      failures before it, and every attempt was a post. */
  lemma FetchBrings(attempts: int, s: Source)
    ensures var (got, posts) := Fetch(attempts, s);
            match s
            case FromCache(hit) =>
              && posts == 0 && got.Some? && got.value.cost == Cost(0.0, true)
              && got.value.text == hit.text && got.value.json == hit.json
              && got.value.calls == hit.calls && got.value.citations == hit.citations
            case FromProvider(tries) =>
              if attempts < 1 then got.None? && posts == 0
              else
                && 1 <= posts <= attempts
                && (forall k :: 0 <= k < posts - 1 ==> tries(k).Failed? && tries(k).retryable)
                && (got.Some? <==> tries(posts - 1).Success?)
                && (got.Some? ==> got.value == tries(posts - 1).value)
                && (got.None? ==> posts == attempts || !(tries(posts - 1).Failed? && tries(posts - 1).retryable))
  {
    if s.FromProvider? && attempts >= 1 { Retry.OutcomeFrom(attempts, s.tries, 1); }
  }

  /** The span of a completion: its kind, its cost if one came, and whether it
      ended well. It does so exactly if one came and the total kept to the
      ceiling in force. */
  lemma AskTells(env: Env, kind: SpanKind, attempts: int, w: World)
    requires Open(w.books.trace, w.books.trace.current)
    ensures var (w', r) := Ask(env, kind, attempts, w);
            var (got, posts) := Fetch(attempts, env.reply(w.asked).source);
            var l, l' := w.books.ledger, w'.books.ledger;
            var id := |w.books.trace.spans|;
            && w'.posts == w.posts + posts && w'.asked == w.asked + 1
            && l'.records == l.records + (if got.Some? then [Record(LlmCall, "model", got.value.cost, id)] else [])
            && |w'.books.trace.spans| == id + 1
            && w'.books.trace.spans[id] ==
                 Span(Some(w.books.trace.current), kind, if r.Ok? then Succeeded else Errored,
                      if got.Some? then Some(got.value.cost) else None, [])
            && (r.Ok? <==> got.Some? && (l.maxUsd.Some? ==>
                  l'.Spent() <= l.maxUsd.value + if l.reserveOpen then l.reserveUsd else 0.0))
            && (r.Ok? ==> r.value == got.value)
            && (r.Err? ==> r.error == if got.None? then Provider else OverBudget)
  {
    hide Fetch, Total;
    var (got, posts) := Fetch(attempts, env.reply(w.asked).source);
    var t, id := w.books.trace, |w.books.trace.spans|;
    var t1 := Enter(t, kind);
    assert t1.current == id && t1.spans[id] == Span(Some(t.current), kind, Status.Running, None, []);
    if got.Some? {
      var w1 := Charges(Enters(w, kind), id, LlmCall, "model", got.value.cost);
      assert w1.books.trace.spans[id] == Span(Some(t.current), kind, Status.Running, Some(got.value.cost), []);
    }
  }

  // ---- prompts ----

  /** The tools a prompt names that the toolbox has. */
  function Offered(env: Env, tools: seq<string>): set<string> {
    if tools == ["*"] then env.tools else set t | t in tools && t in env.tools
  }

  /** A prompt is streamed if it asks for it, somebody listens and no tool is offered. */
  predicate Streams(env: Env, step: Step)
    requires step.Prompt?
  {
    step.stream && env.listening && Offered(env, step.tools) == {}
  }

  lemma OffersOffered(env: Env, tools: seq<string>)
    ensures OffersTools(env, tools) <==> Offered(env, tools) != {}
  {
    if tools != ["*"] {
      if i :| 0 <= i < |tools| && tools[i] in env.tools { assert tools[i] in Offered(env, tools); }
      if t :| t in Offered(env, tools) { assert t in tools; }
    }
  }

  /** The completion that answered the last request before `w'`. */
  function LastAnswer(env: Env, step: Step, w': World): Option<Completion>
    requires step.Prompt? && w'.asked > 0
  {
    Fetch(if Streams(env, step) then 1 else env.maxAttempts, env.reply(w'.asked - 1).source).0
  }

  lemma {:induction false} TurnsAnswer(env: Env, turns: nat, last: Option<Completion>, w: World)
    requires last.Some? ==> w.asked > 0 && Fetch(env.maxAttempts, env.reply(w.asked - 1).source).0 == last
    ensures var (w', c) := Turns(env, turns, last, w);
            c.Ok? ==> w'.asked > 0 && Fetch(env.maxAttempts, env.reply(w'.asked - 1).source).0 == Some(c.value)
    decreases turns
  {
    hide Batch, Fetch, Enter, Leave, SetCost, Total;
    if turns > 0 {
      var (w1, c) := Ask(env, ModelSpan, env.maxAttempts, w);
      if c.Ok? && c.value.calls != [] {
        BatchElse(env, w1, c.value.calls, env.reply(w.asked));
        var (w2, b) := Batch(env, w1, c.value.calls, env.reply(w.asked));
        if b.Ok? { TurnsAnswer(env, turns - 1, Some(c.value), w2); }
      }
    }
  }

  lemma {:induction false} TurnsErrors(env: Env, turns: nat, last: Option<Completion>, w: World)
    ensures var (w', c) := Turns(env, turns, last, w);
            c.Err? ==> c.error in {Provider, OverBudget, UnknownTool, NoCompletion}
    decreases turns
  {
    hide Ask, Batch;
    if turns > 0 {
      AskErrors(env, ModelSpan, env.maxAttempts, w);
      var (w1, c) := Ask(env, ModelSpan, env.maxAttempts, w);
      if c.Ok? && c.value.calls != [] {
        BatchErrors(env, w1, c.value.calls, env.reply(w.asked));
        var (w2, b) := Batch(env, w1, c.value.calls, env.reply(w.asked));
        if b.Ok? { TurnsErrors(env, turns - 1, Some(c.value), w2); }
      }
    }
  }

  /** State after a prompt: the citations of its answer are added to those there
      were, unless it was streamed; nothing else changes. */
  predicate CitesInto(before: State, after: State, citations: seq<Value>) {
    if citations == [] then after == before
    else if "citations" !in before then after == before["citations" := List(citations)]
    else
      && before["citations"].List?
      && after == before["citations" := List(before["citations"].items + citations)]
  }

  /** A prompt without a schema hands on the text of the completion that answered
      its last request, and never fails on its text. */
  lemma PromptAnswers(env: Env, step: Step, w: World)
    requires step.Prompt? && !step.schema
    ensures var (w', r) := RunPrompt(env, step, w);
            && (r.Ok? ==>
                  && w'.asked > 0 && LastAnswer(env, step, w').Some?
                  && r.value == Text(LastAnswer(env, step, w').value.text)
                  && CitesInto(w.state, w'.state,
                       if Streams(env, step) then [] else LastAnswer(env, step, w').value.citations))
            && r != Err(BadJson)
  {
    hide Turns, Render, Fetch, Enter, Leave, SetCost, Total, OffersTools;
    OffersOffered(env, step.tools);
    var turns := AtLeast0(step.maxToolIterations + 1);
    TurnsAnswer(env, turns, None, w);
    TurnsErrors(env, turns, None, w);
    TurnsMade(env, turns, None, w);
  }

  /** A schema changes nothing of that but how the text is read: parsed, where it
      parses, and a failure exactly where it does not. */
  lemma SchemaReadsAnswer(env: Env, step: Step, w: World)
    requires step.Prompt? && !step.schema
    ensures var (w', plain) := RunPrompt(env, step, w);
            var (w'', read) := RunPrompt(env, step.(schema := true), w);
            && w'' == w'
            && (plain.Err? ==> read == plain)
            && (plain.Ok? ==>
                  && w'.asked > 0 && LastAnswer(env, step, w').Some?
                  && read == match LastAnswer(env, step, w').value.json
                             case Some(parsed) => Ok(parsed)
                             case None => Err(BadJson))
  {
    hide Turns, Render, Fetch, Enter, Leave, SetCost, Total, OffersTools;
    PromptAnswers(env, step, w);
    TurnsAnswer(env, AtLeast0(step.maxToolIterations + 1), None, w);
    OffersOffered(env, step.tools);
    var (w', plain) := RunPrompt(env, step, w);
    if plain.Ok? {
      var c := LastAnswer(env, step, w');
      if Streams(env, step) {
        assert Ask(env, ModelSpan, 1, w).1 == Ok(c.value);
      } else {
        assert Turns(env, AtLeast0(step.maxToolIterations + 1), None, w).1 == Ok(c.value);
      }
    }
  }

  /** A streamed prompt is one request, of one attempt. */
  lemma StreamIsOneCall(env: Env, step: Step, w: World)
    requires step.Prompt? && Streams(env, step)
    ensures var w' := RunPrompt(env, step, w).0;
            w' == w || (w'.completions == w.completions + 1 && w'.asked == w.asked + 1 && w'.posts <= w.posts + 1)
  {
    hide Render, Enter, Leave, SetCost, Total, OffersTools;
    OffersOffered(env, step.tools);
    var s := env.reply(w.asked).source;
    if s.FromProvider? { Retry.AttemptsBounded(1, s.tries); }
  }

  // ---- tools ----

  /** Whether an answer is put on the ledger: it costs something, or is cached. */
  predicate Priced(a: ToolAnswer) {
    a.cost.Some? && (a.cost.value.usd != 0.0 || a.cost.value.cached)
  }

  /** A step that calls a known tool with arguments that render: it is billed
      once if the answer costs something, ends well exactly if that kept to the
      ceiling in force and the tool did not fail, or may, and hands on the output
      or the error. */
  lemma ToolAnswers(env: Env, step: Step, w: World)
    requires step.Tool? && RenderArgs(step.args, env, w.state).None? && step.tool in env.tools
    requires Open(w.books.trace, w.books.trace.current)
    ensures var (w', r) := RunTool(env, step, w);
            var a := env.reply(w.asked).answer;
            var l, l' := w.books.ledger, w'.books.ledger;
            var id := |w.books.trace.spans|;
            var crossed := Priced(a) && l.maxUsd.Some?
                             && l'.Spent() > l.maxUsd.value + if l.reserveOpen then l.reserveUsd else 0.0;
            && w'.asked == w.asked + 1 && w'.state == w.state
            && l'.records == l.records + (if Priced(a) then [Record(ToolCharge, step.tool, a.cost.value, id)] else [])
            && |w'.books.trace.spans| == id + 1
            && w'.books.trace.spans[id] ==
                 Span(Some(w.books.trace.current), ToolSpan, if a.ok && !crossed then Succeeded else Errored,
                      if Priced(a) then a.cost else None, [])
            && r == (if crossed then Err(OverBudget)
                     else if a.ok then Ok(a.output)
                     else if step.failOk then Ok(Dict(map["error" := Text(a.error)]))
                     else Err(ToolRefused))
  {
    hide RenderArgs, Total;
  }

  /** A concurrent call that returns, likewise. */
  lemma LandTells(w: World, s: Straggler)
    requires Open(w.books.trace, s.span)
    ensures var (w', raised) := Lands(w, s);
            var l, l' := w.books.ledger, w'.books.ledger;
            var span, span' := w.books.trace.spans[s.span], w'.books.trace.spans[s.span];
            && l'.records == l.records
                 + (if Priced(s.answer) then [Record(ToolCharge, s.tool, s.answer.cost.value, s.span)] else [])
            && (raised <==> Priced(s.answer) && l.maxUsd.Some?
                              && l'.Spent() > l.maxUsd.value + if l.reserveOpen then l.reserveUsd else 0.0)
            && span' == span.(status := if s.answer.ok && !raised then Succeeded else Errored,
                              cost := if Priced(s.answer) then s.answer.cost else span.cost)
  {
    hide Total;
  }

  // ---- loops ----

  /** The condition holds in this state. */
  predicate Met(env: Env, c: Option<Condition>, state: State) {
    c.Some? && Eval(c.value.expr, state, env.py).Ok? && Truthy(Eval(c.value.expr, state, env.py).value)
  }

  /** An answer that parses to a dict which says "done". */
  predicate SaysDone(c: Option<Completion>) {
    && c.Some? && c.value.json.Some? && c.value.json.value.Dict?
    && "done" in c.value.json.value.entries && Truthy(c.value.json.value.entries["done"])
  }

  /** A stop test that ends well says stop exactly if the condition is met or,
      asked only where it is not, the model says it is done. */
  lemma StopMeans(env: Env, step: Step, w: World)
    requires step.Loop?
    ensures var (w', r) := ShouldStop(env, step, w);
            && (Met(env, step.until, w.state) ==> r == Ok(true) && w' == w)
            && (r.Ok? && !Met(env, step.until, w.state) ==>
                  && w'.asked == w.asked + (if step.untilPrompt.Some? then 1 else 0)
                  && (r.value <==>
                        step.untilPrompt.Some? && SaysDone(Fetch(env.maxAttempts, env.reply(w.asked).source).0)))
  {
    hide Eval, Render, Fetch, Enter, Leave, SetCost, Total;
  }

  /** What a pass puts into the results is what its last step handed on. */
  lemma {:induction false} LastResultIsLast(env: Env, step: Step, index: nat, results: seq<Value>, w: World)
    requires step.Loop? && |results| == index
    ensures var (w', r) := Iterations(env, step, index, results, w);
            r.Ok? && |r.value| > index ==>
              r.value[|r.value| - 1] == if step.steps != [] && "last" in w'.state then w'.state["last"] else Null
    decreases step.maxLoops - index
  {
    hide ExecAll, Enter, Leave;
    if index < step.maxLoops {
      var w1 := Puts(Puts(w, "loop_index", Num(index as real)), "loop_iteration", Num((index + 1) as real));
      var e := Enters(w1, IterationSpan);
      var (w2, r) := ExecAll(env, step.steps, Null, e);
      if step.steps == [] { EmptyBody(env, e); } else { PlanAnswerIsLast(env, step.steps, Null, e); }
      if r.Ok? {
        var results' := results + [r.value];
        var w3 := Puts(Leaves(w2, true), "loop_results", List(results'));
        StopMade(env, step, w3);
        var (w4, stop) := ShouldStop(env, step, w3);
        if stop.Ok? && !stop.value {
          LastResultIsLast(env, step, index + 1, results', w4);
          ResultsGrow(env, step, index + 1, results', w4);
        }
      }
    }
  }

  lemma EmptyBody(env: Env, w: World)
    ensures ExecAll(env, [], Null, w) == (w, Ok(Null))
  {
  }

  lemma {:induction false} ResultsGrow(env: Env, step: Step, index: nat, results: seq<Value>, w: World)
    requires step.Loop? && |results| == index
    ensures var (w', r) := Iterations(env, step, index, results, w);
            r.Ok? ==> results <= r.value && (|r.value| == index ==> w' == w)
    decreases step.maxLoops - index
  {
    hide ExecAll, Enter, Leave, ShouldStop;
    if index < step.maxLoops {
      var w1 := Puts(Puts(w, "loop_index", Num(index as real)), "loop_iteration", Num((index + 1) as real));
      var (w2, r) := ExecAll(env, step.steps, Null, Enters(w1, IterationSpan));
      if r.Ok? {
        var results' := results + [r.value];
        var w3 := Puts(Leaves(w2, true), "loop_results", List(results'));
        var (w4, stop) := ShouldStop(env, step, w3);
        if stop.Ok? && !stop.value { ResultsGrow(env, step, index + 1, results', w4); }
      }
    }
  }

  lemma {:induction false} RestoresOnly(before: State, keys: seq<string>, s: State, k: string)
    requires k !in keys || k !in before || before[k] == Null
    ensures var r := Restores(before, keys, s); (k in r <==> k in s) && (k in s ==> r[k] == s[k])
  {
    if keys != [] {
      var c := keys[0];
      RestoresOnly(before, keys[1..], if c in before && before[c] != Null then s[c := before[c]] else s, k);
    }
  }

  /** What a loop that ended well hands on, `rs` being the results of its passes:
      all of them, or the last. They are published too, unless an outer loop's
      are back in their place. */
  predicate LoopHandsOn(step: Step, before: State, after: State, value: Value, rs: seq<Value>)
    requires step.Loop?
  {
    && |rs| <= AtLeast0(step.maxLoops)
    && (step.until.None? && step.untilPrompt.None? ==> |rs| == AtLeast0(step.maxLoops))
    && value == (if step.collect then List(rs) else if rs == [] then Null else rs[|rs| - 1])
    && (rs != [] ==>
          rs[|rs| - 1] == if step.steps != [] && "last" in after then after["last"] else Null)
    && "loop_results" in after
    && after["loop_results"] ==
         if "loop_results" in before && before["loop_results"] != Null then before["loop_results"] else List(rs)
  }

  lemma LoopAnswers(env: Env, step: Step, w: World)
    requires step.Loop?
    ensures var (w', r) := RunLoop(env, step, w);
            r.Ok? ==> exists rs :: LoopHandsOn(step, w.state, w'.state, r.value, rs)
  {
    hide Iterations, Restores;
    var w0 := Puts(w, "loop_results", List([]));
    LoopKeepsResults(env, step, 0, [], w0);
    LastResultIsLast(env, step, 0, [], w0);
    var (w1, rs) := Iterations(env, step, 0, [], w0);
    if rs.Ok? {
      RestoresOnly(w.state, COUNTERS, w1.state, "last");
      if "loop_results" in w.state && w.state["loop_results"] != Null {
        NestedLoopRestores(env, step, w, "loop_results");
      } else {
        RestoresOnly(w.state, COUNTERS, w1.state, "loop_results");
      }
      var (w', r) := RunLoop(env, step, w);
      assert LoopHandsOn(step, w.state, w'.state, r.value, rs.value);
    }
  }

  // ---- the span of a step ----

  /** A step that runs has a span of its own under the current one, which says
      that it is a step or a loop and how it ended; a skipped one's says so. */
  lemma StepSpanTells(env: Env, step: Step, w: World)
    requires EnvOk(env) && Steady(w)
    ensures var (w', r) := Exec(env, step, w);
            var t, t', id := w.books.trace, w'.books.trace, |w.books.trace.spans|;
            var skip := if step.head.skipIf.None? then Ok(false) else Holds(env, step.head.skipIf.value, w.state);
            t' != t ==>
              && id < |t'.spans| && t'.spans[id].parent == Some(t.current)
              && (skip == Ok(true) ==> t'.spans[id].kind == SkippedStep && t'.spans[id].status == Skipped)
              && (skip == Ok(false) ==>
                    && t'.spans[id].kind == (if step.Loop? then LoopSpan else StepSpan)
                    && t'.spans[id].status == if r.Ok? then Succeeded else Errored)
  {
    hide RunStep, Moves, Holds, OpenSpans;
    var kind := if step.Loop? then LoopSpan else StepSpan;
    if !w.books.ledger.Refuses() {
      var e := Enters(w, kind);
      EntersSteady(w, kind);
      RunStepProgress(env, step, e);
      var (w2, r) := RunStep(env, step, e);
      SpanStays(e.books, w2.books, w2.stragglers, |w.books.trace.spans|);
    }
  }

  lemma SpanStays(b: Books, b': Books, ss: seq<Straggler>, id: nat)
    requires Moves(b, [], b', ss) && b.trace.current == id && id < |b.trace.spans|
    ensures b'.trace.current == id && id < |b'.trace.spans|
    ensures b'.trace.spans[id].kind == b.trace.spans[id].kind && b'.trace.spans[id].parent == b.trace.spans[id].parent
  {
    KindsStay(b, Since(b, b'));
  }
}
