/** Trace and ledger together: the atomic actions a run is made of, and what
    every one of them keeps. The books log each action as it happens, so the
    log of a run is the run; its points are the states between two actions. */
module Books {
  import opened Prelude
  import opened Costs
  import opened Trace

  datatype Act =
    | Opened(kind: SpanKind)                                    // main task: attach and make current
    | Spawned                                                   // a concurrent tool call: attach only
    | Billed(span: nat, callKind: Kind, name: string, cost: Cost)   // Tracer.record_cost
    | Settled(span: nat, status: Status)                        // a concurrent span closes
    | Left(status: Status)                                      // the current span closes
    | Released                                                  // CostTracker.open_reserve

  datatype Books = Books(trace: Trace, ledger: Ledger, log: seq<Act>)

  /** Something was recorded and the ceiling is crossed: `add` has raised. */
  predicate Tripped(l: Ledger) {
    l.Over() && l.records != []
  }

  predicate Open(t: Trace, id: nat) {
    id < |t.spans| && t.spans[id].status == Running
  }

  /** What a run may do next. No span opens once the ledger has tripped, and no
      step or loop opens while `check` refuses; only the bail-out call does,
      and only after the reserve was opened. A span is billed while it runs and
      at most once. */
  predicate Legal(b: Books, a: Act) {
    var t := b.trace;
    match a
    case Opened(kind) =>
      && Open(t, t.current)
      && (kind in {StepSpan, LoopSpan} ==> !b.ledger.Refuses())
      && (if kind == BailOutSpan then b.ledger.reserveOpen else !Tripped(b.ledger))
    case Spawned => Open(t, t.current) && !Tripped(b.ledger)
    case Billed(span, _, _, cost) =>
      Open(t, span) && span != 0 && t.spans[span].cost.None? && cost.usd >= 0.0
    case Settled(span, status) =>
      Open(t, span) && span != 0 && span != t.current && t.spans[span].children == [] && status != Running
    case Left(status) =>
      Open(t, t.current) && t.current != 0 && status != Running
    case Released => true
  }

  // ---- the actions, each logged as it happens ----

  function Opens(b: Books, kind: SpanKind): Books {
    b.(trace := Enter(b.trace, kind), log := b.log + [Opened(kind)])
  }

  function Spawn(b: Books): Books {
    b.(trace := Attach(b.trace, ToolSpan), log := b.log + [Spawned])
  }

  /** `record_cost`: the span first, then the ledger; the listener is told only
      if the ledger did not raise. */
  function Bill(b: Books, span: nat, kind: Kind, name: string, cost: Cost): Books {
    var t := SetCost(b.trace, span, cost);
    var l := b.ledger.Add(Record(kind, name, cost, span));
    Books(if l.Over() then t else Emit(t, Charged(span, cost, l.Spent())), l,
          b.log + [Billed(span, kind, name, cost)])
  }

  function Settles(b: Books, span: nat, status: Status): Books {
    b.(trace := Settle(b.trace, span, status), log := b.log + [Settled(span, status)])
  }

  function Closes(b: Books, status: Status): Books {
    b.(trace := Leave(b.trace, status), log := b.log + [Left(status)])
  }

  function Releases(b: Books): Books {
    b.(ledger := b.ledger.OpenReserve(), log := b.log + [Released])
  }

  function Apply(b: Books, a: Act): (r: Books)
    requires Legal(b, a)
    ensures r.log == b.log + [a]
  {
    match a
    case Opened(kind) => Opens(b, kind)
    case Spawned => Spawn(b)
    case Billed(span, kind, name, cost) => Bill(b, span, kind, name, cost)
    case Settled(span, status) => Settles(b, span, status)
    case Left(status) => Closes(b, status)
    case Released => Releases(b)
  }

  predicate LegalRun(b: Books, acts: seq<Act>)
    decreases acts
  {
    acts == [] || (Legal(b, acts[0]) && LegalRun(Apply(b, acts[0]), acts[1..]))
  }

  function After(b: Books, acts: seq<Act>): Books
    requires LegalRun(b, acts)
    decreases acts
  {
    if acts == [] then b else After(Apply(b, acts[0]), acts[1..])
  }

  lemma {:induction false} RunIsLogged(b: Books, acts: seq<Act>)
    requires LegalRun(b, acts)
    ensures After(b, acts).log == b.log + acts
    decreases acts
  {
    if acts != [] { RunIsLogged(Apply(b, acts[0]), acts[1..]); }
  }

  /** How often something was billed, and for how much together. */
  function Bills(acts: seq<Act>): nat {
    if acts == [] then 0 else (if acts[0].Billed? then 1 else 0) + Bills(acts[1..])
  }

  function BilledUsd(acts: seq<Act>): real {
    if acts == [] then 0.0 else (if acts[0].Billed? then acts[0].cost.usd else 0.0) + BilledUsd(acts[1..])
  }

  /** The ledger holds what the log says was billed; its ceilings are those it
      had, but for the calls once the reserve was released. */
  lemma {:induction false} LedgerIsLog(b: Books, acts: seq<Act>)
    requires LegalRun(b, acts)
    ensures var l, l' := b.ledger, After(b, acts).ledger;
            && |l'.records| == |l.records| + Bills(acts)
            && l'.Spent() == l.Spent() + BilledUsd(acts)
            && l'.maxUsd == l.maxUsd && l'.reserveUsd == l.reserveUsd
            && (l'.reserveOpen <==> l.reserveOpen || Released in acts)
            && l'.maxCalls == if Released in acts then None else l.maxCalls
    decreases acts
  {
    if acts != [] {
      LedgerStep(b, acts[0]);
      LedgerIsLog(Apply(b, acts[0]), acts[1..]);
      assert acts == [acts[0]] + acts[1..];
    }
  }

  lemma LedgerStep(b: Books, a: Act)
    requires Legal(b, a)
    ensures var l, l' := b.ledger, Apply(b, a).ledger;
            && |l'.records| == |l.records| + (if a.Billed? then 1 else 0)
            && l'.Spent() == l.Spent() + (if a.Billed? then a.cost.usd else 0.0)
            && l'.maxUsd == l.maxUsd && l'.reserveUsd == l.reserveUsd
            && (l'.reserveOpen <==> l.reserveOpen || a == Released)
            && l'.maxCalls == if a == Released then None else l.maxCalls
  {
    if a.Billed? { TotalSnoc(b.ledger.records, Record(a.callKind, a.name, a.cost, a.span)); }
  }

  /** A span stays what it is: its kind and its parent. */
  lemma {:induction false} KindsStay(b: Books, acts: seq<Act>)
    requires LegalRun(b, acts)
    ensures var t, t' := b.trace, After(b, acts).trace;
            && |t.spans| <= |t'.spans|
            && forall i :: 0 <= i < |t.spans| ==>
                 t'.spans[i].kind == t.spans[i].kind && t'.spans[i].parent == t.spans[i].parent
    decreases acts
  {
    if acts != [] {
      KindsStep(b, acts[0]);
      KindsStay(Apply(b, acts[0]), acts[1..]);
    }
  }

  lemma KindsStep(b: Books, a: Act)
    requires Legal(b, a)
    ensures var t, t' := b.trace, Apply(b, a).trace;
            && |t.spans| <= |t'.spans|
            && forall i :: 0 <= i < |t.spans| ==>
                 t'.spans[i].kind == t.spans[i].kind && t'.spans[i].parent == t.spans[i].parent
  {
  }

  /** What was done between two states: the log holds it, in order. */
  function Since(b: Books, b': Books): seq<Act>
    requires b.log <= b'.log
  {
    b'.log[|b.log|..]
  }

  /** What was logged since `b` is a legal run and explains all of `b'`. */
  predicate Leads(b: Books, b': Books) {
    && b.log <= b'.log
    && LegalRun(b, Since(b, b'))
    && After(b, Since(b, b')) == b'
  }

  lemma LeadsRefl(b: Books)
    ensures Leads(b, b)
  {
  }

  lemma LeadsStep(b: Books, a: Act)
    requires Legal(b, a)
    ensures Leads(b, Apply(b, a))
  {
    hide Apply, Legal;
    var r := Apply(b, a);
    assert Since(b, r) == [a] && [a][1..] == [];
    assert LegalRun(r, []) && After(r, []) == r;
  }

  lemma {:induction false} RunConcat(b: Books, xs: seq<Act>, ys: seq<Act>)
    requires LegalRun(b, xs) && LegalRun(After(b, xs), ys)
    ensures LegalRun(b, xs + ys) && After(b, xs + ys) == After(After(b, xs), ys)
    decreases xs
  {
    if xs == [] {
      assert xs + ys == ys;
    } else {
      RunConcat(Apply(b, xs[0]), xs[1..], ys);
      assert (xs + ys)[1..] == xs[1..] + ys;
    }
  }

  lemma LeadsTrans(b0: Books, b1: Books, b2: Books)
    requires Leads(b0, b1) && Leads(b1, b2)
    ensures Leads(b0, b2)
  {
    var xs, ys := Since(b0, b1), Since(b1, b2);
    RunConcat(b0, xs, ys);
    assert Since(b0, b2) == xs + ys;
  }

  // ---- the invariant ----

  /** Each ledger line sits on its own span and the span carries exactly that
      cost; a span without a line carries none. */
  predicate OneCostEach(t: Trace, records: seq<Record>) {
    && (forall k :: 0 <= k < |records| ==>
          records[k].span < |t.spans| && t.spans[records[k].span].cost == Some(records[k].cost))
    && (forall j, k :: 0 <= j < k < |records| ==> records[j].span != records[k].span)
    && (forall i :: 0 <= i < |t.spans| && t.spans[i].cost.Some? ==>
          exists k :: 0 <= k < |records| && records[k].span == i)
  }

  /** Every span but the root is announced once, and its end is announced once,
      afterwards, when and only when it is no longer running. */
  ghost predicate EventsOk(t: Trace) {
    && (forall id: nat :: Started(id) in t.events <==> 0 < id < |t.spans|)
    && (forall id: nat :: Ended(id) in t.events <==> id < |t.spans| && t.spans[id].status != Running)
    && (forall i, j :: 0 <= i < j < |t.events| && !t.events[j].Charged? ==> t.events[i] != t.events[j])
    && (forall j :: 0 <= j < |t.events| && t.events[j].Ended? && t.events[j].id != 0 ==>
          Started(t.events[j].id) in t.events[..j])
  }

  /** Trace and ledger agree with each other, and each within itself. */
  ghost predicate Accounted(b: Books) {
    && IsTree(b.trace.spans)
    && b.trace.current < |b.trace.spans|
    && OwnTotal(b.trace.spans) == b.ledger.Spent()
    && OneCostEach(b.trace, b.ledger.records)
    && EventsOk(b.trace)
    && AllCharged(b.ledger.records)
  }

  /** A span ends before its parent does, unless it is a concurrent call. */
  ghost predicate Nested(t: Trace) {
    forall i, j :: 0 <= i < |t.spans| && 0 <= j < |t.events| && t.events[j].Ended?
        && t.spans[i].parent == Some(t.events[j].id) && t.spans[i].kind != ToolSpan
      ==> Ended(i) in t.events[..j]
  }

  /** Of the spans that run, all but concurrent calls are the current one and
      those above it. */
  ghost predicate OnPath(t: Trace)
    requires IsTree(t.spans) && t.current < |t.spans|
  {
    forall i :: 0 <= i < |t.spans| && t.spans[i].status == Running && t.spans[i].kind != ToolSpan
      ==> Above(t.spans, i, t.current)
  }

  ghost predicate Sound(b: Books) {
    Accounted(b) && Nested(b.trace) && OnPath(b.trace)
  }

  lemma StartSound(maxUsd: Option<real>, maxCalls: Option<int>, reserve: real)
    ensures Sound(Books(NewTrace(), Ledger(maxUsd, maxCalls, reserve, false, []), []))
  {
    var spans := NewTrace().spans;
    assert spans[..0] == [];
    assert ChildrenOk(spans, 0) && ParentOk(spans, 0);
  }

  lemma AttachKeepsTree(t: Trace, kind: SpanKind)
    requires IsTree(t.spans) && t.current < |t.spans|
    ensures IsTree(Attach(t, kind).spans)
    ensures OwnTotal(Attach(t, kind).spans) == OwnTotal(t.spans)
  {
    var spans, r, n := t.spans, Attach(t, kind).spans, |t.spans|;
    forall i | 0 <= i < |r| ensures ChildrenOk(r, i) && ParentOk(r, i) {
      if i < n {
        assert ChildrenOk(spans, i) && ParentOk(spans, i);
        if i != 0 {
          var p := spans[i].parent.value;
          assert spans[p].children <= r[p].children;
        }
      } else {
        assert r[t.current].children[|spans[t.current].children|] == n;
      }
    }
    OwnTotalUpdate(spans, t.current, r[t.current]);
    assert r[..n] == spans[t.current := r[t.current]];
  }

  /** Changing what a span records, but not its place, keeps the tree. */
  lemma RelabelKeepsTree(spans: seq<Span>, i: nat, s: Span)
    requires IsTree(spans) && i < |spans|
    requires s.parent == spans[i].parent && s.children == spans[i].children
    ensures IsTree(spans[i := s])
    ensures OwnTotal(spans[i := s]) == OwnTotal(spans) - Own(spans[i]) + Own(s)
  {
    var r := spans[i := s];
    forall k | 0 <= k < |r| ensures ChildrenOk(r, k) && ParentOk(r, k) {
      assert ChildrenOk(spans, k) && ParentOk(spans, k);
    }
    OwnTotalUpdate(spans, i, s);
  }

  lemma AttachKeepsEvents(t: Trace, kind: SpanKind)
    requires EventsOk(t) && t.current < |t.spans|
    ensures EventsOk(Attach(t, kind))
  {
    var r := Attach(t, kind);
    var n := |t.events|;
    assert r.events[n] == Started(|t.spans|);
    forall j | 0 <= j < |r.events| && r.events[j].Ended? && r.events[j].id != 0
      ensures Started(r.events[j].id) in r.events[..j]
    {
      assert r.events[..j] == t.events[..j];
    }
    forall id: nat ensures Ended(id) in r.events <==> id < |r.spans| && r.spans[id].status != Running {
      assert Ended(id) in r.events <==> Ended(id) in t.events;
    }
    forall i, j | 0 <= i < j < |r.events| && !r.events[j].Charged?
      ensures r.events[i] != r.events[j]
    {
      if j == n { assert r.events[i] in t.events; }
    }
  }

  lemma SettleKeepsEvents(t: Trace, id: nat, status: Status)
    requires EventsOk(t) && Open(t, id) && status != Running
    ensures EventsOk(Settle(t, id, status))
  {
    var r := Settle(t, id, status);
    var n := |t.events|;
    assert r.events[n] == Ended(id);
    assert Ended(id) !in t.events;
    forall j | 0 <= j < |r.events| && r.events[j].Ended? && r.events[j].id != 0
      ensures Started(r.events[j].id) in r.events[..j]
    {
      assert r.events[..j] == t.events[..j];
      if j == n { assert t.events[..n] == t.events; }
    }
    forall x: nat ensures Started(x) in r.events <==> 0 < x < |r.spans| {
      assert Started(x) in r.events <==> Started(x) in t.events;
    }
    forall i, j | 0 <= i < j < |r.events| && !r.events[j].Charged?
      ensures r.events[i] != r.events[j]
    {
      if j == n { assert r.events[i] in t.events; }
    }
  }

  /** New spans come without a cost and old ones keep theirs. */
  lemma SameCosts(t: Trace, r: Trace, records: seq<Record>)
    requires OneCostEach(t, records) && |t.spans| <= |r.spans|
    requires forall i :: 0 <= i < |t.spans| ==> r.spans[i].cost == t.spans[i].cost
    requires forall i :: |t.spans| <= i < |r.spans| ==> r.spans[i].cost.None?
    ensures OneCostEach(r, records)
  {
  }

  lemma NewCost(t: Trace, records: seq<Record>, r: Record)
    requires OneCostEach(t, records)
    requires r.span < |t.spans| && t.spans[r.span].cost.None?
    ensures OneCostEach(SetCost(t, r.span, r.cost), records + [r])
  {
    var t', more := SetCost(t, r.span, r.cost), records + [r];
    forall i | 0 <= i < |t'.spans| && t'.spans[i].cost.Some?
      ensures exists k :: 0 <= k < |more| && more[k].span == i
    {
      if i == r.span {
        assert more[|records|].span == i;
      } else {
        assert t.spans[i].cost.Some?;
        var k :| 0 <= k < |records| && records[k].span == i;
        assert more[k].span == i;
      }
    }
  }

  lemma CostKeepsEvents(t: Trace, span: nat, cost: Cost)
    requires EventsOk(t) && span < |t.spans|
    ensures EventsOk(SetCost(t, span, cost))
  {
  }

  /** Billing notifications leave the start and end events as they were. */
  lemma ChargeEventKeepsEvents(t: Trace, e: Event)
    requires EventsOk(t) && e.Charged?
    ensures EventsOk(Emit(t, e))
  {
    var r := Emit(t, e);
    forall j | 0 <= j < |r.events| && r.events[j].Ended? && r.events[j].id != 0
      ensures Started(r.events[j].id) in r.events[..j]
    {
      assert r.events[..j] == t.events[..j];
    }
    forall id: nat
      ensures Started(id) in r.events <==> Started(id) in t.events
      ensures Ended(id) in r.events <==> Ended(id) in t.events
    {
    }
  }

  lemma CostKeepsAccounts(b: Books, r: Record, log: seq<Act>)
    requires Accounted(b) && r.span < |b.trace.spans| && b.trace.spans[r.span].cost.None? && r.cost.usd >= 0.0
    ensures Accounted(Books(SetCost(b.trace, r.span, r.cost), b.ledger.Add(r), log))
  {
    var t := b.trace;
    RelabelKeepsTree(t.spans, r.span, t.spans[r.span].(cost := Some(r.cost)));
    TotalSnoc(b.ledger.records, r);
    NewCost(t, b.ledger.records, r);
    CostKeepsEvents(t, r.span, r.cost);
    ChargedSnoc(b.ledger.records, r);
  }

  lemma BillKeepsAccounts(b: Books, span: nat, kind: Kind, name: string, cost: Cost)
    requires Accounted(b) && Legal(b, Billed(span, kind, name, cost))
    ensures Accounted(Bill(b, span, kind, name, cost))
  {
    hide IsTree, EventsOk, OneCostEach, AllCharged, Total, OwnTotal;
    CostKeepsAccounts(b, Record(kind, name, cost, span), b.log + [Billed(span, kind, name, cost)]);
    var t1, l1 := SetCost(b.trace, span, cost), b.ledger.Add(Record(kind, name, cost, span));
    var e := Charged(span, cost, l1.Spent());
    ChargeEventKeepsEvents(t1, e);
    SameCosts(t1, Emit(t1, e), l1.records);
  }

  lemma ChargedSnoc(records: seq<Record>, r: Record)
    requires AllCharged(records) && r.cost.usd >= 0.0
    ensures AllCharged(records + [r])
  {
  }

  lemma AttachKeepsAccounts(b: Books, kind: SpanKind)
    requires Accounted(b)
    ensures Accounted(b.(trace := Attach(b.trace, kind)))
  {
    AttachKeepsTree(b.trace, kind);
    AttachKeepsEvents(b.trace, kind);
    SameCosts(b.trace, Attach(b.trace, kind), b.ledger.records);
  }

  lemma SettleKeepsAccounts(b: Books, id: nat, status: Status)
    requires Accounted(b) && Open(b.trace, id) && status != Running
    ensures Accounted(b.(trace := Settle(b.trace, id, status)))
  {
    var t := b.trace;
    RelabelKeepsTree(t.spans, id, t.spans[id].(status := status));
    SettleKeepsEvents(t, id, status);
    SameCosts(t, Settle(t, id, status), b.ledger.records);
  }

  /** Whether a span is above another depends on the parents alone. */
  lemma {:induction false} AboveSame(spans: seq<Span>, r: seq<Span>, i: nat, j: nat)
    requires IsTree(spans) && IsTree(r) && j < |spans| <= |r|
    requires forall k :: 0 <= k < |spans| ==> r[k].parent == spans[k].parent
    ensures Above(spans, i, j) <==> Above(r, i, j)
    decreases j
  {
    assert ParentOk(spans, j);
    if i < j { AboveSame(spans, r, i, spans[j].parent.value); }
  }

  lemma BillKeepsNesting(b: Books, span: nat, kind: Kind, name: string, cost: Cost)
    requires Sound(b) && Legal(b, Billed(span, kind, name, cost)) && Accounted(Bill(b, span, kind, name, cost))
    ensures Sound(Bill(b, span, kind, name, cost))
  {
    hide IsTree, EventsOk, OneCostEach, AllCharged, Total, OwnTotal;
    var t, r := b.trace, Bill(b, span, kind, name, cost).trace;
    assert r.events[..|t.events|] == t.events;
    forall i, j | 0 <= i < |r.spans| && 0 <= j < |r.events| && r.events[j].Ended?
        && r.spans[i].parent == Some(r.events[j].id) && r.spans[i].kind != ToolSpan
      ensures Ended(i) in r.events[..j]
    {
      assert r.events[..j] == t.events[..j];
    }
    forall i | 0 <= i < |r.spans| && r.spans[i].status == Running && r.spans[i].kind != ToolSpan
      ensures Above(r.spans, i, r.current)
    {
      AboveSame(t.spans, r.spans, i, t.current);
    }
  }

  /** A span that opens nests: its parent is still open. */
  lemma AttachKeepsNested(t: Trace, kind: SpanKind)
    requires Nested(t) && EventsOk(t) && Open(t, t.current)
    ensures Nested(Attach(t, kind))
  {
    var r, n := Attach(t, kind), |t.spans|;
    assert Ended(t.current) !in t.events;
    forall i, j | 0 <= i < |r.spans| && 0 <= j < |r.events| && r.events[j].Ended?
        && r.spans[i].parent == Some(r.events[j].id) && r.spans[i].kind != ToolSpan
      ensures Ended(i) in r.events[..j]
    {
      assert r.events[..j] == t.events[..j];
      assert i < n ==> t.spans[i].parent == r.spans[i].parent && t.spans[i].kind == r.spans[i].kind;
    }
  }

  /** Entered, it is the end of the path; left to a task of its own, it is none of it. */
  lemma AttachKeepsPath(t: Trace, kind: SpanKind)
    requires IsTree(t.spans) && t.current < |t.spans| && OnPath(t) && IsTree(Attach(t, kind).spans)
    ensures OnPath(Enter(t, kind))
    ensures kind == ToolSpan ==> OnPath(Attach(t, kind))
  {
    var r, n := Attach(t, kind).spans, |t.spans|;
    assert ParentOk(r, n);
    forall i | 0 <= i < n && r[i].status == Running && r[i].kind != ToolSpan
      ensures Above(r, i, t.current) && Above(r, i, n)
    {
      assert t.spans[i].status == Running && t.spans[i].kind != ToolSpan;
      AboveSame(t.spans, r, i, t.current);
    }
  }

  /** A span that closes has no child open but concurrent calls: it is the
      current one, or has no child at all. */
  lemma SettleKeepsNested(b: Books, id: nat, status: Status)
    requires Sound(b) && Open(b.trace, id) && status != Running
    requires id == b.trace.current || b.trace.spans[id].children == []
    ensures Nested(Settle(b.trace, id, status))
  {
    hide OneCostEach, AllCharged, Total, OwnTotal;
    var t, r := b.trace, Settle(b.trace, id, status);
    forall i, j | 0 <= i < |r.spans| && 0 <= j < |r.events| && r.events[j].Ended?
        && r.spans[i].parent == Some(r.events[j].id) && r.spans[i].kind != ToolSpan
      ensures Ended(i) in r.events[..j]
    {
      assert r.events[..j] == t.events[..j];
      assert ParentOk(t.spans, i);
      if j == |t.events| {
        assert t.events[..j] == t.events;
        assert !Above(t.spans, i, id);
      }
    }
  }

  lemma SettleKeepsPath(b: Books, id: nat, status: Status)
    requires Sound(b) && Open(b.trace, id) && status != Running && IsTree(Settle(b.trace, id, status).spans)
    ensures OnPath(Settle(b.trace, id, status))
    ensures id == b.trace.current && id != 0 ==>
              var r := Leave(b.trace, status); r.current < |r.spans| && OnPath(r)
  {
    hide OneCostEach, AllCharged, Total, OwnTotal, EventsOk, Nested;
    var t, r := b.trace, Settle(b.trace, id, status);
    assert ParentOk(t.spans, t.current);
    forall i | 0 <= i < |r.spans| && r.spans[i].status == Running && r.spans[i].kind != ToolSpan
      ensures Above(r.spans, i, t.current)
      ensures id == t.current && id != 0 ==> Above(r.spans, i, t.spans[id].parent.value)
    {
      AboveSame(t.spans, r.spans, i, t.current);
      assert ParentOk(r.spans, t.current);
    }
  }

  /** Where the main task is does not matter to spans, costs and events. */
  lemma ElsewhereSame(t: Trace, r: Trace, records: seq<Record>)
    requires r.spans == t.spans && r.events == t.events
    requires EventsOk(t) && OneCostEach(t, records)
    ensures EventsOk(r) && OneCostEach(r, records) && (Nested(t) ==> Nested(r))
  {
  }

  /** Every legal action keeps the books sound. */
  lemma StepKeepsSound(b: Books, a: Act)
    requires Sound(b) && Legal(b, a)
    ensures Sound(Apply(b, a))
  {
    hide OneCostEach, AllCharged, Total, OwnTotal, EventsOk, Nested, IsTree;
    match a
    case Opened(kind) =>
      AttachKeepsAccounts(b, kind);
      AttachKeepsNested(b.trace, kind);
      AttachKeepsPath(b.trace, kind);
      ElsewhereSame(Attach(b.trace, kind), Enter(b.trace, kind), b.ledger.records);
    case Spawned =>
      AttachKeepsAccounts(b, ToolSpan);
      AttachKeepsNested(b.trace, ToolSpan);
      AttachKeepsPath(b.trace, ToolSpan);
    case Billed(span, kind, name, cost) =>
      BillKeepsAccounts(b, span, kind, name, cost);
      BillKeepsNesting(b, span, kind, name, cost);
    case Settled(span, status) =>
      SettleKeepsAccounts(b, span, status);
      SettleKeepsNested(b, span, status);
      SettleKeepsPath(b, span, status);
    case Left(status) =>
      SettleKeepsAccounts(b, b.trace.current, status);
      SettleKeepsNested(b, b.trace.current, status);
      SettleKeepsPath(b, b.trace.current, status);
      ElsewhereSame(Settle(b.trace, b.trace.current, status), Leave(b.trace, status), b.ledger.records);
    case Released =>
  }

  /** The books are sound at every point of every run, aborted or not. */
  lemma {:induction false} SoundAtEveryPoint(b: Books, acts: seq<Act>, k: nat)
    requires Sound(b) && LegalRun(b, acts) && k <= |acts|
    ensures LegalRun(b, acts[..k]) && Sound(After(b, acts[..k]))
    decreases k
  {
    hide Legal, Apply, Sound;
    if k > 0 {
      StepKeepsSound(b, acts[0]);
      SoundAtEveryPoint(Apply(b, acts[0]), acts[1..], k - 1);
      assert acts[..k][1..] == acts[1..][..k - 1];
    }
  }

  /** Conservation at every point: what the recursive total of the root shows
      is what the ledger holds, and no span was charged twice. */
  lemma ConservedAtEveryPoint(b: Books, acts: seq<Act>, k: nat)
    requires Sound(b) && LegalRun(b, acts) && k <= |acts|
    ensures LegalRun(b, acts[..k])
    ensures var p := After(b, acts[..k]);
            && IsTree(p.trace.spans)
            && TreeTotal(p.trace.spans, 0) == p.ledger.Spent()
            && OneCostEach(p.trace, p.ledger.records)
  {
    SoundAtEveryPoint(b, acts, k);
    RootTotalIsOwnTotal(After(b, acts[..k]).trace.spans);
  }

  lemma LeadsKeepsSound(b: Books, b': Books)
    requires Sound(b) && Leads(b, b')
    ensures Sound(b')
  {
    var acts := Since(b, b');
    SoundAtEveryPoint(b, acts, |acts|);
    assert acts[..|acts|] == acts;
  }

  /** What is billed is on the span and in the ledger; the listener is told of it,
      and of the total, unless that crosses the ceiling in force. */
  lemma BillTells(b: Books, span: nat, kind: Kind, name: string, cost: Cost)
    requires span < |b.trace.spans|
    ensures var b' := Bill(b, span, kind, name, cost);
            var total := b.ledger.Spent() + cost.usd;
            && b'.ledger == b.ledger.(records := b.ledger.records + [Record(kind, name, cost, span)])
            && b'.ledger.Spent() == total
            && b'.trace.spans == b.trace.spans[span := b.trace.spans[span].(cost := Some(cost))]
            && b'.trace.events == b.trace.events
                 + if b.ledger.maxUsd.Some?
                      && total > b.ledger.maxUsd.value + (if b.ledger.reserveOpen then b.ledger.reserveUsd else 0.0)
                   then [] else [Charged(span, cost, total)]
  {
    hide Total;
    TotalSnoc(b.ledger.records, Record(kind, name, cost, span));
  }

  /** Why a span may be billed once only: `record_cost` overwrites, so billing
      a span again keeps tree and ledger equal exactly when the cost it
      overwrites was zero. */
  lemma RebillingLosesCost(b: Books, span: nat, kind: Kind, name: string, cost: Cost)
    requires Sound(b) && span < |b.trace.spans|
    ensures var r := Bill(b, span, kind, name, cost);
            IsTree(r.trace.spans) &&
            (TreeTotal(r.trace.spans, 0) == r.ledger.Spent() <==> Own(b.trace.spans[span]) == 0.0)
  {
    var t := b.trace;
    RelabelKeepsTree(t.spans, span, t.spans[span].(cost := Some(cost)));
    RootTotalIsOwnTotal(SetCost(t, span, cost).spans);
    TotalSnoc(b.ledger.records, Record(kind, name, cost, span));
  }
}
