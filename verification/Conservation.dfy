/** Every plan run is a legal run of the books: what the interpreter keeps of
    trace and ledger, whatever the plan and whatever the outside answers. */
module Conservation {
  import opened Prelude
  import opened Costs
  import opened Trace
  import opened Books
  import opened Template
  import opened Plans
  import opened Interpreter
  import Retry

  // ---- the contract of the outside: no negative cost ----

  predicate ChargesNothingBack(cost: Option<Cost>) {
    cost.Some? ==> cost.value.usd >= 0.0
  }

  predicate Charging(c: Completion) {
    && c.cost.usd >= 0.0
    && forall i :: 0 <= i < |c.calls| ==> ChargesNothingBack(c.calls[i].answer.cost)
  }

  ghost predicate SourceOk(s: Source) {
    match s
    case FromCache(hit) => Charging(hit)
    case FromProvider(tries) => forall k :: tries(k).Success? ==> Charging(tries(k).value)
  }

  ghost predicate EnvOk(env: Env) {
    forall n :: SourceOk(env.reply(n).source) && ChargesNothingBack(env.reply(n).answer.cost)
  }

  lemma FetchOk(attempts: int, s: Source)
    requires SourceOk(s)
    ensures var got := Fetch(attempts, s).0; got.Some? ==> Charging(got.value)
  {
    if s.FromProvider? && attempts >= 1 {
      Retry.OutcomeFrom(attempts, s.tries, 1);
    }
  }

  // ---- what a stretch of a run keeps ----

  function OpenSpans(t: Trace): set<nat> {
    set id | 0 <= id < |t.spans| && t.spans[id].status == Status.Running
  }

  function SpansOf(ss: seq<Straggler>): set<nat> {
    set i | 0 <= i < |ss| :: ss[i].span
  }

  /** Calls in the air: each has a span of its own that is open and unbilled. */
  predicate InAir(ss: seq<Straggler>, t: Trace) {
    && (forall i :: 0 <= i < |ss| ==>
          && Open(t, ss[i].span) && t.spans[ss[i].span].cost.None?
          && ss[i].span != 0 && ss[i].span != t.current && t.spans[ss[i].span].children == []
          && ChargesNothingBack(ss[i].answer.cost))
    && (forall i, j :: 0 <= i < j < |ss| ==> ss[i].span != ss[j].span)
  }

  predicate SameCeilings(l: Ledger, l': Ledger) {
    && l'.maxUsd == l.maxUsd && l'.maxCalls == l.maxCalls
    && l'.reserveUsd == l.reserveUsd && l'.reserveOpen == l.reserveOpen
  }

  /** From `b` with `ss` in the air a legal run leads to `b'` with `ss'` in the
      air; the main task is where it was, and no span of its own has opened or
      closed on balance. */
  ghost predicate Moves(b: Books, ss: seq<Straggler>, b': Books, ss': seq<Straggler>) {
    && Leads(b, b')
    && b'.trace.current == b.trace.current
    && SameCeilings(b.ledger, b'.ledger)
    && InAir(ss', b'.trace)
    && OpenSpans(b'.trace) - SpansOf(ss') == OpenSpans(b.trace) - SpansOf(ss)
    && |b.trace.spans| <= |b'.trace.spans|
    && (forall i :: 0 <= i < |b.trace.spans| ==> b'.trace.spans[i].parent == b.trace.spans[i].parent)
  }

  lemma MovesRefl(b: Books, ss: seq<Straggler>)
    requires InAir(ss, b.trace)
    ensures Moves(b, ss, b, ss)
  {
    LeadsRefl(b);
  }

  lemma MovesTrans(b0: Books, s0: seq<Straggler>, b1: Books, s1: seq<Straggler>, b2: Books, s2: seq<Straggler>)
    requires Moves(b0, s0, b1, s1) && Moves(b1, s1, b2, s2)
    ensures Moves(b0, s0, b2, s2)
  {
    LeadsTrans(b0, b1, b2);
  }

  /** The main task may go on: nothing is in the air and nothing has tripped. */
  ghost predicate Steady(w: World) {
    && Open(w.books.trace, w.books.trace.current)
    && w.stragglers == []
    && !Tripped(w.books.ledger)
  }

  // ---- one span around a stretch ----

  lemma EntersMoves(b: Books, kind: SpanKind)
    requires Legal(b, Opened(kind))
    ensures var b1 := Opens(b, kind);
            && Leads(b, b1)
            && b1.trace.current == |b.trace.spans| && |b1.trace.spans| == |b.trace.spans| + 1
            && b1.trace.spans[b1.trace.current] == Span(Some(b.trace.current), kind, Status.Running, None, [])
            && OpenSpans(b1.trace) == OpenSpans(b.trace) + {b1.trace.current}
            && (forall i :: 0 <= i < |b.trace.spans| ==> b1.trace.spans[i].parent == b.trace.spans[i].parent)
  {
    LeadsStep(b, Opened(kind));
  }

  /** A span opened before a stretch and closed after it. */
  lemma Bracket(b: Books, kind: SpanKind, b2: Books, ss: seq<Straggler>, status: Status)
    requires Legal(b, Opened(kind)) && status != Status.Running
    requires Moves(Opens(b, kind), [], b2, ss)
    ensures Moves(b, [], Closes(b2, status), ss)
  {
    EntersMoves(b, kind);
    var b1 := Opens(b, kind);
    var b3 := Closes(b2, status);
    var id := |b.trace.spans|;
    assert SpansOf([]) == {};
    assert id in OpenSpans(b1.trace) - SpansOf([]);
    assert Open(b2.trace, id);
    assert id != 0 && Legal(b2, Left(status));
    LeadsStep(b2, Left(status));
    LeadsTrans(b, b1, b2);
    LeadsTrans(b, b2, b3);
    assert b3.trace.current == b.trace.current;
    assert OpenSpans(b3.trace) == OpenSpans(b2.trace) - {id};
    assert id !in SpansOf(ss) && id !in OpenSpans(b.trace);
    assert InAir(ss, b3.trace) by {
      forall i | 0 <= i < |ss| ensures ss[i].span != b.trace.current {
        assert ss[i].span in SpansOf(ss);
        assert b.trace.current in OpenSpans(b1.trace) - SpansOf([]);
        assert b.trace.current !in SpansOf(ss);
      }
    }
    assert OpenSpans(b2.trace) - SpansOf(ss) == OpenSpans(b.trace) + {id};
    assert (OpenSpans(b2.trace) - {id}) - SpansOf(ss) == OpenSpans(b.trace);
    assert OpenSpans(b3.trace) - SpansOf(ss) == OpenSpans(b.trace) - SpansOf([]);
  }

  /** Billing the current span of the main task. */
  lemma ChargeMoves(b: Books, kind: Kind, name: string, cost: Cost)
    requires Legal(b, Billed(b.trace.current, kind, name, cost))
    ensures Moves(b, [], Bill(b, b.trace.current, kind, name, cost), [])
  {
    var a := Billed(b.trace.current, kind, name, cost);
    LeadsStep(b, a);
  }

  lemma AskMoves(env: Env, kind: SpanKind, attempts: int, w: World)
    requires EnvOk(env) && Open(w.books.trace, w.books.trace.current)
    requires Legal(w.books, Opened(kind))
    ensures var (w', r) := Ask(env, kind, attempts, w);
            && Moves(w.books, [], w'.books, []) && w'.stragglers == w.stragglers
            && (r.Ok? ==> !w'.books.ledger.Over() && Charging(r.value))
  {
    assert SourceOk(env.reply(w.asked).source);
    FetchOk(attempts, env.reply(w.asked).source);
    var got := Fetch(attempts, env.reply(w.asked).source).0;
    EntersMoves(w.books, kind);
    var b1 := Opens(w.books, kind);
    if got.None? {
      MovesRefl(b1, []);
      Bracket(w.books, kind, b1, [], Errored);
    } else {
      ChargeMoves(b1, LlmCall, "model", got.value.cost);
      var b2 := Bill(b1, b1.trace.current, LlmCall, "model", got.value.cost);
      Bracket(w.books, kind, b2, [], if b2.ledger.Over() then Errored else Succeeded);
    }
  }

  // ---- concurrent calls ----

  lemma SpansWithout(ss: seq<Straggler>, i: nat, t: Trace)
    requires i < |ss| && InAir(ss, t)
    ensures SpansOf(Without(ss, i)) == SpansOf(ss) - {ss[i].span}
  {
    var r := Without(ss, i);
    forall k | 0 <= k < |ss| && k != i ensures ss[k].span in SpansOf(r) {
      assert r[if k < i then k else k - 1] == ss[k];
    }
    forall x | x in SpansOf(r) ensures x in SpansOf(ss) - {ss[i].span} {
      var k :| 0 <= k < |r| && r[k].span == x;
      assert r[k] == ss[if k < i then k else k + 1];
    }
  }

  /** A call that returns is billed at most once and closes its span. */
  lemma LandsLeads(w: World, s: Straggler)
    requires InAir([s], w.books.trace)
    ensures var (w1, raised) := Lands(w, s);
            && Leads(w.books, w1.books)
            && SameCeilings(w.books.ledger, w1.books.ledger)
            && (!raised && !Tripped(w.books.ledger) ==> !Tripped(w1.books.ledger))
  {
    var (w1, raised) := Lands(w, s);
    var b := w.books;
    assert [s][0] == s;
    var b1 := b;
    LeadsRefl(b);
    if Billable(s.answer.cost) {
      var a := Billed(s.span, ToolCharge, s.tool, s.answer.cost.value);
      LeadsStep(b, a);
      b1 := Apply(b, a);
    }
    var status := if s.answer.ok && !raised then Succeeded else Errored;
    LeadsStep(b1, Settled(s.span, status));
    LeadsTrans(b, b1, w1.books);
  }

  /** It touches no span but its own. */
  lemma LandsFrame(w: World, s: Straggler)
    requires Open(w.books.trace, s.span)
    ensures var t, t1 := w.books.trace, Lands(w, s).0.books.trace;
            && |t1.spans| == |t.spans| && t1.current == t.current
            && Lands(w, s).0.stragglers == w.stragglers
            && t1.spans[s.span].status != Status.Running
            && t1.spans[s.span].parent == t.spans[s.span].parent
            && (forall i :: 0 <= i < |t.spans| && i != s.span ==> t1.spans[i] == t.spans[i])
  {
  }

  /** One call of those in the air returns. */
  lemma LandsMoves(w: World, ss: seq<Straggler>, i: nat)
    requires InAir(ss, w.books.trace) && i < |ss|
    ensures var (w1, raised) := Lands(w, ss[i]);
            && Moves(w.books, ss, w1.books, Without(ss, i))
            && w1.stragglers == w.stragglers
            && (!raised && !Tripped(w.books.ledger) ==> !Tripped(w1.books.ledger))
  {
    hide Leads, Lands;
    var s := ss[i];
    LandsLeads(w, s);
    LandsFrame(w, s);
    SpansWithout(ss, i, w.books.trace);
    var t, t1 := w.books.trace, Lands(w, s).0.books.trace;
    assert OpenSpans(t1) == OpenSpans(t) - {s.span};
    assert s.span in SpansOf(ss);
    var rest := Without(ss, i);
    forall k | 0 <= k < |rest| ensures Open(t1, rest[k].span) && t1.spans[rest[k].span].cost.None? {
      assert rest[k] == ss[if k < i then k else k + 1];
    }
  }

  lemma {:induction false} DrainsMoves(w: World, inAir: seq<Straggler>, picks: nat -> nat)
    requires InAir(inAir, w.books.trace) && !Tripped(w.books.ledger) && w.stragglers == []
    ensures var (w', raised) := Drains(w, inAir, picks);
            && Moves(w.books, inAir, w'.books, w'.stragglers)
            && (!raised ==> w'.stragglers == [] && !Tripped(w'.books.ledger))
    decreases |inAir|
  {
    if inAir == [] {
      MovesRefl(w.books, inAir);
    } else {
      var i := picks(|inAir|) % |inAir|;
      LandsMoves(w, inAir, i);
      var (w1, raised) := Lands(w, inAir[i]);
      assert [] + Without(inAir, i) == Without(inAir, i);
      if !raised {
        DrainsMoves(w1, Without(inAir, i), picks);
        var w2 := Drains(w1, Without(inAir, i), picks).0;
        MovesTrans(w.books, inAir, w1.books, Without(inAir, i), w2.books, w2.stragglers);
      }
    }
  }

  lemma {:induction false} StragglesMoves(w: World, n: nat, picks: nat -> nat)
    requires InAir(w.stragglers, w.books.trace)
    ensures var w' := Straggles(w, n, picks);
            Moves(w.books, w.stragglers, w'.books, w'.stragglers)
    decreases n
  {
    if n == 0 || w.stragglers == [] {
      MovesRefl(w.books, w.stragglers);
    } else {
      var i := picks(|w.stragglers|) % |w.stragglers|;
      LandsMoves(w, w.stragglers, i);
      var w1 := Lands(w, w.stragglers[i]).0.(stragglers := Without(w.stragglers, i));
      StragglesMoves(w1, n - 1, picks);
      var w2 := Straggles(w1, n - 1, picks);
      MovesTrans(w.books, w.stragglers, w1.books, w1.stragglers, w2.books, w2.stragglers);
    }
  }

  /** The calls of a turn all open; `before` are those opened already. */
  lemma {:induction false} SpawnsMoves(w: World, tools: set<string>, calls: seq<Request>, before: seq<Straggler>)
    requires InAir(before, w.books.trace) && !Tripped(w.books.ledger)
    requires Open(w.books.trace, w.books.trace.current)
    requires forall i :: 0 <= i < |calls| ==> ChargesNothingBack(calls[i].answer.cost)
    ensures var (w', ss) := Spawns(w, tools, calls);
            && Moves(w.books, before, w'.books, before + ss)
            && w'.stragglers == w.stragglers && w'.books.ledger == w.books.ledger
    decreases calls
  {
    if calls == [] {
      MovesRefl(w.books, before);
      assert before + [] == before;
    } else if calls[0].tool !in tools {
      SpawnsMoves(w, tools, calls[1..], before);
    } else {
      var b := w.books;
      LeadsStep(b, Spawned);
      var w1 := w.(books := Apply(b, Spawned));
      var s := Straggler(|b.trace.spans|, calls[0].tool, calls[0].answer);
      var more := before + [s];
      assert SpansOf(more) == SpansOf(before) + {s.span} by {
        forall x | x in SpansOf(before) ensures x in SpansOf(more) {
          var i :| 0 <= i < |before| && before[i].span == x;
          assert more[i].span == x;
        }
        assert more[|before|].span == s.span;
      }
      assert OpenSpans(w1.books.trace) == OpenSpans(b.trace) + {s.span};
      assert s.span !in OpenSpans(b.trace);
      assert Moves(b, before, w1.books, more);
      SpawnsMoves(w1, tools, calls[1..], more);
      var (w2, rest) := Spawns(w1, tools, calls[1..]);
      assert more + rest == before + ([s] + rest);
      MovesTrans(b, before, w1.books, more, w2.books, more + rest);
    }
  }

  lemma BatchMoves(env: Env, w: World, calls: seq<Request>, reply: Reply)
    requires Steady(w)
    requires forall i :: 0 <= i < |calls| ==> ChargesNothingBack(calls[i].answer.cost)
    ensures var (w', r) := Batch(env, w, calls, reply);
            && Moves(w.books, [], w'.books, w'.stragglers)
            && (r.Ok? ==> Steady(w'))
  {
    var (w1, inAir) := Spawns(w, env.tools, calls);
    SpawnsMoves(w, env.tools, calls, []);
    assert [] + inAir == inAir;
    if !AllKnown(env.tools, calls) {
      var w2 := w1.(stragglers := inAir);
      StragglesMoves(w2, reply.landing, reply.picks);
      var w3 := Straggles(w2, reply.landing, reply.picks);
      MovesTrans(w.books, [], w2.books, w2.stragglers, w3.books, w3.stragglers);
    } else {
      DrainsMoves(w1, inAir, reply.picks);
      var (w2, raised) := Drains(w1, inAir, reply.picks);
      MovesTrans(w.books, [], w1.books, inAir, w2.books, w2.stragglers);
      if raised {
        StragglesMoves(w2, reply.landing, reply.picks);
        var w3 := Straggles(w2, reply.landing, reply.picks);
        MovesTrans(w.books, [], w2.books, w2.stragglers, w3.books, w3.stragglers);
      } else {
        MovesKeepsOpen(w.books, w2.books, []);
      }
    }
  }

  lemma MovesKeepsOpen(b: Books, b': Books, ss: seq<Straggler>)
    requires Moves(b, [], b', ss) && Open(b.trace, b.trace.current)
    ensures Open(b'.trace, b'.trace.current)
  {
    assert SpansOf([]) == {};
    assert b.trace.current in OpenSpans(b.trace) - SpansOf([]);
  }

  // ---- steps and plans ----

  /** A stretch of the main task: legal throughout, and when it succeeds the
      task may go on. */
  ghost predicate Progress(w: World, w': World, ok: bool) {
    && Moves(w.books, [], w'.books, w'.stragglers)
    && (ok ==> w'.stragglers == [] && !Tripped(w'.books.ledger))
  }

  lemma ProgressSteady(w: World, w': World)
    requires Steady(w) && Progress(w, w', true)
    ensures Steady(w')
  {
    MovesKeepsOpen(w.books, w'.books, []);
  }

  lemma ProgressTrans(w0: World, w1: World, w2: World, ok: bool)
    requires Progress(w0, w1, true) && Progress(w1, w2, ok)
    ensures Progress(w0, w2, ok)
  {
    MovesTrans(w0.books, [], w1.books, [], w2.books, w2.stragglers);
  }

  /** Progress is about books and calls in the air only. */
  lemma ProgressElse(w: World, w1: World, ok1: bool, w2: World, ok2: bool)
    requires Progress(w, w1, ok1) && (ok2 ==> ok1)
    requires w2.books == w1.books && w2.stragglers == w1.stragglers
    ensures Progress(w, w2, ok2)
  {
  }

  lemma NoProgress(w: World, ok: bool)
    requires Steady(w)
    ensures Progress(w, w, ok)
  {
    MovesRefl(w.books, []);
  }

  lemma EntersSteady(w: World, kind: SpanKind)
    requires Steady(w) && Legal(w.books, Opened(kind))
    ensures Steady(Enters(w, kind))
  {
  }

  /** A stretch inside a span of its own. */
  lemma Bracketed(w: World, kind: SpanKind, w2: World, ok: bool)
    requires Steady(w) && Legal(w.books, Opened(kind))
    requires Progress(Enters(w, kind), w2, ok)
    ensures Progress(w, Leaves(w2, ok), ok)
  {
    Bracket(w.books, kind, w2.books, w2.stragglers, if ok then Succeeded else Errored);
  }

  lemma AskProgress(env: Env, kind: SpanKind, attempts: int, w: World)
    requires EnvOk(env) && Steady(w) && kind in {ModelSpan, StopCheckSpan}
    ensures var (w', r) := Ask(env, kind, attempts, w);
            Progress(w, w', r.Ok?) && (r.Ok? ==> Charging(r.value))
  {
    AskMoves(env, kind, attempts, w);
  }

  /** One turn with calls: the model answers, then its calls run. */
  lemma TurnProgress(env: Env, w: World)
    requires EnvOk(env) && Steady(w)
    requires Ask(env, ModelSpan, env.maxAttempts, w).1.Ok?
    ensures var (w1, c) := Ask(env, ModelSpan, env.maxAttempts, w);
            var (w2, b) := Batch(env, w1, c.value.calls, env.reply(w.asked));
            Progress(w, w2, b.Ok?)
  {
    AskProgress(env, ModelSpan, env.maxAttempts, w);
    var (w1, c) := Ask(env, ModelSpan, env.maxAttempts, w);
    ProgressSteady(w, w1);
    BatchMoves(env, w1, c.value.calls, env.reply(w.asked));
    var (w2, b) := Batch(env, w1, c.value.calls, env.reply(w.asked));
    ProgressTrans(w, w1, w2, b.Ok?);
  }

  lemma {:induction false} TurnsProgress(env: Env, turns: nat, last: Option<Completion>, w: World)
    requires EnvOk(env) && Steady(w)
    ensures var (w', r) := Turns(env, turns, last, w); Progress(w, w', r.Ok?)
    decreases turns
  {
    hide Moves, Ask, Batch;
    if turns == 0 {
      MovesRefl(w.books, []);
    } else {
      AskProgress(env, ModelSpan, env.maxAttempts, w);
      var (w1, c) := Ask(env, ModelSpan, env.maxAttempts, w);
      if c.Ok? && c.value.calls != [] {
        TurnProgress(env, w);
        var (w2, b) := Batch(env, w1, c.value.calls, env.reply(w.asked));
        if b.Ok? {
          ProgressSteady(w, w2);
          TurnsProgress(env, turns - 1, Some(c.value), w2);
          var (w3, r) := Turns(env, turns - 1, Some(c.value), w2);
          ProgressTrans(w, w2, w3, r.Ok?);
        }
      }
    }
  }

  lemma PromptProgress(env: Env, step: Step, w: World)
    requires step.Prompt? && EnvOk(env) && Steady(w)
    ensures var (w', r) := RunPrompt(env, step, w); Progress(w, w', r.Ok?)
  {
    hide Moves, Ask;
    if Render(step.prompt, w.state, env.show, env.attrs).Err? {
      MovesRefl(w.books, []);
    } else if step.stream && !OffersTools(env, step.tools) && env.listening {
      AskProgress(env, ModelSpan, 1, w);
      var (w1, c) := Ask(env, ModelSpan, 1, w);
      ProgressElse(w, w1, c.Ok?, w1, RunPrompt(env, step, w).1.Ok?);
    } else {
      var turns := AtLeast0(step.maxToolIterations + 1);
      TurnsProgress(env, turns, None, w);
      var (w1, c) := Turns(env, turns, None, w);
      var (w2, r) := RunPrompt(env, step, w);
      ProgressElse(w, w1, c.Ok?, w2, r.Ok?);
    }
  }

  lemma ToolProgress(env: Env, step: Step, w: World)
    requires step.Tool? && EnvOk(env) && Steady(w)
    ensures var (w', r) := RunTool(env, step, w); Progress(w, w', r.Ok?)
  {
    hide Moves, Leads;
    MovesRefl(w.books, []);
    if RenderArgs(step.args, env, w.state).None? && step.tool in env.tools {
      EntersMoves(w.books, ToolSpan);
      var a := env.reply(w.asked).answer;
      assert ChargesNothingBack(a.cost);
      var b1 := Opens(w.books, ToolSpan);
      var b2 := b1;
      MovesRefl(b1, []);
      if Billable(a.cost) {
        ChargeMoves(b1, ToolCharge, step.tool, a.cost.value);
        b2 := Bill(b1, b1.trace.current, ToolCharge, step.tool, a.cost.value);
      }
      var raised := Billable(a.cost) && b2.ledger.Over();
      Bracket(w.books, ToolSpan, b2, [], if a.ok && !raised then Succeeded else Errored);
    }
  }

  lemma StopProgress(env: Env, step: Step, w: World)
    requires step.Loop? && EnvOk(env) && Steady(w)
    ensures var (w', r) := ShouldStop(env, step, w); Progress(w, w', r.Ok?)
  {
    hide Moves, Ask;
    var now := if step.until.None? then Ok(false) else Holds(env, step.until.value, w.state);
    if now.Err? || now.value || step.untilPrompt.None? {
      NoProgress(w, now.Ok?);
    } else if Render(step.untilPrompt.value, w.state, env.show, env.attrs).Err? {
      EntersSteady(w, StopCheckSpan);
      NoProgress(Enters(w, StopCheckSpan), false);
      Bracketed(w, StopCheckSpan, Enters(w, StopCheckSpan), false);
    } else {
      AskProgress(env, StopCheckSpan, env.maxAttempts, w);
      var (w1, c) := Ask(env, StopCheckSpan, env.maxAttempts, w);
      ProgressElse(w, w1, c.Ok?, w1, c.Ok?);
    }
  }

  lemma {:induction false} IterationsProgress(env: Env, step: Step, index: nat, results: seq<Value>, w: World)
    requires step.Loop? && EnvOk(env) && Steady(w)
    ensures var (w', r) := Iterations(env, step, index, results, w); Progress(w, w', r.Ok?)
    decreases step, 1, step.maxLoops - index
  {
    hide Moves, ShouldStop;
    if index >= step.maxLoops {
      MovesRefl(w.books, []);
    } else {
      var w1 := Puts(Puts(w, "loop_index", Num(index as real)), "loop_iteration", Num((index + 1) as real));
      EntersSteady(w1, IterationSpan);
      ExecAllProgress(env, step.steps, Null, Enters(w1, IterationSpan));
      var (w2, r) := ExecAll(env, step.steps, Null, Enters(w1, IterationSpan));
      Bracketed(w1, IterationSpan, w2, r.Ok?);
      if r.Ok? {
        var results' := results + [r.value];
        var w3 := Puts(Leaves(w2, true), "loop_results", List(results'));
        ProgressSteady(w, w3);
        StopProgress(env, step, w3);
        var (w4, stop) := ShouldStop(env, step, w3);
        ProgressTrans(w, w3, w4, stop.Ok?);
        if stop.Ok? && !stop.value {
          ProgressSteady(w, w4);
          IterationsProgress(env, step, index + 1, results', w4);
          var (w5, last) := Iterations(env, step, index + 1, results', w4);
          ProgressTrans(w, w4, w5, last.Ok?);
        }
      }
    }
  }

  lemma {:induction false} RunStepProgress(env: Env, step: Step, w: World)
    requires EnvOk(env) && Steady(w)
    ensures var (w', r) := RunStep(env, step, w); Progress(w, w', r.Ok?)
    decreases step, 3
  {
    hide Moves, RunPrompt, RunTool;
    match step
    case Prompt(_, _, _, _, _, _) => PromptProgress(env, step, w);
    case Tool(_, _, _, _) => ToolProgress(env, step, w);
    case Loop(_, _, _, _, _, _) =>
      var w0 := Puts(w, "loop_results", List([]));
      IterationsProgress(env, step, 0, [], w0);
      var (w1, r) := Iterations(env, step, 0, [], w0);
      ProgressElse(w, w1, r.Ok?, RunLoop(env, step, w).0, r.Ok?);
  }

  /** Executing a step, in any steady state and against any outside, is a legal
      stretch of a run. */
  lemma {:induction false} ExecProgress(env: Env, step: Step, w: World)
    requires EnvOk(env) && Steady(w)
    ensures var (w', r) := Exec(env, step, w); Progress(w, w', r.Ok?)
    decreases step, 4
  {
    hide Moves, RunStep;
    var skip := if step.head.skipIf.None? then Ok(false) else Holds(env, step.head.skipIf.value, w.state);
    if skip.Err? || (!skip.value && w.books.ledger.Refuses()) {
      MovesRefl(w.books, []);
    } else if skip.value {
      EntersMoves(w.books, SkippedStep);
      MovesRefl(Enters(w, SkippedStep).books, []);
      Bracket(w.books, SkippedStep, Enters(w, SkippedStep).books, [], Skipped);
    } else {
      var kind := if step.Loop? then LoopSpan else StepSpan;
      EntersSteady(w, kind);
      RunStepProgress(env, step, Enters(w, kind));
      var (w2, r) := RunStep(env, step, Enters(w, kind));
      Bracketed(w, kind, w2, r.Ok?);
    }
  }

  /** So is executing a whole plan. */
  lemma {:induction false} ExecAllProgress(env: Env, plan: Plan, acc: Value, w: World)
    requires EnvOk(env) && Steady(w)
    ensures var (w', r) := ExecAll(env, plan, acc, w); Progress(w, w', r.Ok?)
    decreases plan, 0
  {
    hide Moves, Exec;
    if plan == [] {
      MovesRefl(w.books, []);
    } else {
      ExecProgress(env, plan[0], w);
      var (w1, r) := Exec(env, plan[0], w);
      if r.Ok? {
        ProgressSteady(w, w1);
        ExecAllProgress(env, plan[1..], r.value, w1);
        var (w2, r2) := ExecAll(env, plan[1..], r.value, w1);
        ProgressTrans(w, w1, w2, r2.Ok?);
      }
    }
  }
}
