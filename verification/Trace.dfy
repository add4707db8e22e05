/** The span tree of one run (`rsi_arena/core/trace.py`).

    Spans live in a table indexed by id, in creation order, with id 0 the root;
    `children` holds ids. `current` is the context variable of the main task.
    Work that `asyncio.gather` runs concurrently has its own copy of that
    variable, so a concurrent span is attached without becoming current. */
module Trace {
  import opened Prelude
  import opened Costs

  datatype SpanKind =
    | Root | StepSpan | SkippedStep | LoopSpan | IterationSpan
    | ModelSpan | StopCheckSpan | BailOutSpan | ToolSpan

  datatype Status = Running | Succeeded | Errored | Skipped

  datatype Span = Span(
    parent: Option<nat>,
    kind: SpanKind,
    status: Status,
    cost: Option<Cost>,
    children: seq<nat>)

  datatype Event =
    | Started(id: nat)
    | Ended(id: nat)
    | Charged(id: nat, cost: Cost, total: real)

  datatype Trace = Trace(spans: seq<Span>, current: nat, events: seq<Event>, finished: bool)

  // ---- the operations of the tracer, on values ----

  function NewTrace(): Trace {
    Trace([Span(None, Root, Running, None, [])], 0, [], false)
  }

  // An id outside the table stands for no span; nothing a run does uses one
  // (`Books.Legal`), and these operations ignore it.

  /** A new span under the current one, not made current. */
  function Attach(t: Trace, kind: SpanKind): Trace {
    if t.current >= |t.spans| then t
    else
      var id := |t.spans|;
      var p := t.spans[t.current];
      t.(spans := t.spans[t.current := p.(children := p.children + [id])]
                  + [Span(Some(t.current), kind, Running, None, [])],
         events := t.events + [Started(id)])
  }

  function Enter(t: Trace, kind: SpanKind): Trace {
    Attach(t, kind).(current := |t.spans|)
  }

  function Settle(t: Trace, id: nat, status: Status): Trace {
    if id >= |t.spans| then t
    else
      t.(spans := t.spans[id := t.spans[id].(status := status)],
         events := t.events + [Ended(id)])
  }

  /** Closes the current span and makes its parent current again. */
  function Leave(t: Trace, status: Status): Trace {
    var parent := if t.current < |t.spans| then t.spans[t.current].parent else None;
    Settle(t, t.current, status).(current := if parent.Some? then parent.value else 0)
  }

  function SetCost(t: Trace, id: nat, cost: Cost): Trace {
    if id >= |t.spans| then t
    else t.(spans := t.spans[id := t.spans[id].(cost := Some(cost))])
  }

  function Emit(t: Trace, e: Event): Trace {
    t.(events := t.events + [e])
  }

  /** Closes the root; a second call changes nothing. */
  function Finish(t: Trace, failed: bool): Trace {
    if t.finished || t.spans == [] then t
    else
      var root := t.spans[0];
      var status := if failed then Errored
                    else if root.status == Running then Succeeded else root.status;
      Settle(t, 0, status).(finished := true)
  }

  // ---- the shape of the tree ----

  predicate ChildrenOk(spans: seq<Span>, i: nat)
    requires i < |spans|
  {
    var cs := spans[i].children;
    && (forall k :: 0 <= k < |cs| ==> i < cs[k] < |spans| && spans[cs[k]].parent == Some(i))
    && (forall j, k :: 0 <= j < k < |cs| ==> cs[j] < cs[k])
  }

  predicate ParentOk(spans: seq<Span>, i: nat)
    requires i < |spans|
  {
    if i == 0 then spans[i].parent.None?
    else spans[i].parent.Some? && spans[i].parent.value < i && i in spans[spans[i].parent.value].children
  }

  /** A span is a child of its parent and of nothing else, and was created
      after it: the table is a tree rooted at 0. */
  predicate IsTree(spans: seq<Span>) {
    && |spans| > 0
    && (forall i :: 0 <= i < |spans| ==> ChildrenOk(spans, i))
    && (forall i :: 0 <= i < |spans| ==> ParentOk(spans, i))
  }

  function Own(s: Span): real {
    if s.cost.Some? then s.cost.value.usd else 0.0
  }

  /** What the table holds in all, the tree ignored. */
  function OwnTotal(spans: seq<Span>): real {
    if spans == [] then 0.0
    else OwnTotal(spans[..|spans| - 1]) + Own(spans[|spans| - 1])
  }

  /** The spans from `i` on, a span and all its descendants among them. */
  function Left(spans: seq<Span>, i: nat): nat {
    if i <= |spans| then |spans| - i else 0
  }

  /** `Span.total_usd`: a span's own cost and that of everything below it. */
  function TreeTotal(spans: seq<Span>, i: nat): real
    requires i < |spans| && IsTree(spans)
    decreases Left(spans, i), 1, 0
  {
    assert ChildrenOk(spans, i);
    Own(spans[i]) + ChildrenTotal(spans, i, spans[i].children)
  }

  function ChildrenTotal(spans: seq<Span>, i: nat, cs: seq<nat>): real
    requires i < |spans| && IsTree(spans)
    requires forall k :: 0 <= k < |cs| ==> i < cs[k] < |spans|
    decreases Left(spans, i), 0, cs
  {
    if cs == [] then 0.0
    else ChildrenTotal(spans, i, cs[..|cs| - 1]) + TreeTotal(spans, cs[|cs| - 1])
  }

  // ---- the recursive total counts every span exactly once ----

  /** `i` is `j` or an ancestor of it. */
  predicate Above(spans: seq<Span>, i: nat, j: nat)
    requires j < |spans| && IsTree(spans)
    decreases j
  {
    assert ParentOk(spans, j);
    j == i || (i < j && Above(spans, i, spans[j].parent.value))
  }

  /** The child of `i` on the way down to its descendant `j`. */
  function Toward(spans: seq<Span>, i: nat, j: nat): (c: nat)
    requires i < j < |spans| && IsTree(spans) && Above(spans, i, j)
    ensures i < c <= j && c in spans[i].children && Above(spans, c, j)
    decreases j
  {
    assert ParentOk(spans, j);
    var p := spans[j].parent.value;
    assert Above(spans, i, p);
    if p == i then j else Toward(spans, i, p)
  }

  lemma {:induction false} TowardUnique(spans: seq<Span>, i: nat, c: nat, j: nat)
    requires i < j < |spans| && IsTree(spans)
    requires c in spans[i].children && Above(spans, c, j)
    ensures Above(spans, i, j) && Toward(spans, i, j) == c
    decreases j
  {
    assert ChildrenOk(spans, i);
    assert ParentOk(spans, j);
    if c != j {
      TowardUnique(spans, i, c, spans[j].parent.value);
    }
  }

  /** The table without its newest span, which is always a leaf. */
  function Peel(spans: seq<Span>): (r: seq<Span>)
    requires |spans| > 1 && IsTree(spans)
    ensures IsTree(r) && |r| == |spans| - 1
  {
    var n := |spans| - 1;
    assert ParentOk(spans, n);
    var p := spans[n].parent.value;
    var cs := spans[p].children;
    assert ChildrenOk(spans, p);
    var r := spans[..n][p := spans[p].(children := cs[..|cs| - 1])];
    LastChild(spans, n);
    assert forall i :: 0 <= i < |r| ==> ChildrenOk(r, i) by {
      forall i | 0 <= i < |r| ensures ChildrenOk(r, i) {
        assert ChildrenOk(spans, i);
        forall k | 0 <= k < |r[i].children| ensures r[i].children[k] < n {
          assert spans[spans[i].children[k]].parent == Some(i);
        }
      }
    }
    assert forall i :: 0 <= i < |r| ==> ParentOk(r, i) by {
      forall i | 0 <= i < |r| ensures ParentOk(r, i) {
        assert ParentOk(spans, i);
      }
    }
    r
  }

  lemma LastChild(spans: seq<Span>, n: nat)
    requires |spans| > 1 && IsTree(spans) && n == |spans| - 1
    requires spans[n].parent.Some?
    ensures var p := spans[n].parent.value;
            p < n && |spans[p].children| > 0 && spans[p].children[|spans[p].children| - 1] == n
  {
    assert ParentOk(spans, n);
    var p := spans[n].parent.value;
    assert ChildrenOk(spans, p);
    var cs := spans[p].children;
    var k :| 0 <= k < |cs| && cs[k] == n;
    assert cs[k] <= cs[|cs| - 1];
  }

  lemma {:induction false} AbovePeel(spans: seq<Span>, i: nat, j: nat)
    requires |spans| > 1 && IsTree(spans) && j < |spans| - 1
    ensures Above(spans, i, j) <==> Above(Peel(spans), i, j)
    decreases j
  {
    assert ParentOk(spans, j);
    if i < j { AbovePeel(spans, i, spans[j].parent.value); }
  }

  /** Removing the newest span takes its cost off the total of exactly the
      spans above it. */
  lemma {:induction false} PeelTotal(spans: seq<Span>, i: nat)
    requires |spans| > 1 && IsTree(spans) && i < |spans| - 1
    ensures TreeTotal(spans, i) == TreeTotal(Peel(spans), i)
              + (if Above(spans, i, |spans| - 1) then Own(spans[|spans| - 1]) else 0.0)
    decreases Left(spans, i), 1, 0
  {
    var n := |spans| - 1;
    assert ParentOk(spans, n);
    var p := spans[n].parent.value;
    var cs := spans[i].children;
    assert ChildrenOk(spans, i);
    assert ChildrenOk(Peel(spans), i);
    LastChild(spans, n);
    if i == p {
      PeelChildren(spans, i, cs[..|cs| - 1]);
      LeafTotal(spans, n);
      forall k | 0 <= k < |cs| - 1 ensures !Above(spans, cs[k], n) {
        assert cs[k] > p;
      }
    } else {
      forall k | 0 <= k < |cs| ensures cs[k] < n {
        assert spans[cs[k]].parent == Some(i);
      }
      PeelChildren(spans, i, cs);
      if Above(spans, i, n) {
        assert Toward(spans, i, n) in cs;
      } else {
        forall k | 0 <= k < |cs| ensures !Above(spans, cs[k], n) {
          if Above(spans, cs[k], n) { TowardUnique(spans, i, cs[k], n); }
        }
      }
    }
  }

  /** Strictly increasing ids between two bounds are no more than fit there. */
  lemma {:induction false} IncreasingFits(cs: seq<nat>, low: nat, high: nat)
    requires low < high
    requires forall k :: 0 <= k < |cs| ==> low < cs[k] < high
    requires forall j, k :: 0 <= j < k < |cs| ==> cs[j] < cs[k]
    ensures |cs| < high - low
  {
    if cs != [] {
      IncreasingFits(cs[..|cs| - 1], low, cs[|cs| - 1]);
    }
  }

  lemma LeafTotal(spans: seq<Span>, n: nat)
    requires IsTree(spans) && n == |spans| - 1
    ensures TreeTotal(spans, n) == Own(spans[n])
  {
    assert ChildrenOk(spans, n);
    IncreasingFits(spans[n].children, n, |spans|);
  }

  lemma {:induction false} PeelChildren(spans: seq<Span>, i: nat, cs: seq<nat>)
    requires |spans| > 1 && IsTree(spans) && i < |spans| - 1
    requires cs <= spans[i].children
    requires forall k :: 0 <= k < |cs| ==> i < cs[k] < |spans| - 1
    ensures ChildrenTotal(spans, i, cs) == ChildrenTotal(Peel(spans), i, cs)
              + (if exists k :: 0 <= k < |cs| && Above(spans, cs[k], |spans| - 1)
                 then Own(spans[|spans| - 1]) else 0.0)
    decreases Left(spans, i), 0, cs
  {
    var n := |spans| - 1;
    if cs != [] {
      var init, c := cs[..|cs| - 1], cs[|cs| - 1];
      assert ChildrenOk(spans, i);
      PeelChildren(spans, i, init);
      PeelTotal(spans, c);
      if Above(spans, c, n) {
        TowardUnique(spans, i, c, n);
        forall k | 0 <= k < |init| ensures !Above(spans, init[k], n) {
          assert cs[k] < c;
          if Above(spans, init[k], n) { TowardUnique(spans, i, init[k], n); }
        }
        assert Above(spans, cs[|cs| - 1], n);
      } else {
        if k :| 0 <= k < |init| && Above(spans, init[k], n) { assert Above(spans, cs[k], n); }
        if k :| 0 <= k < |cs| && Above(spans, cs[k], n) { assert Above(spans, init[k], n); }
      }
    }
  }

  lemma {:induction false} RootIsAbove(spans: seq<Span>, j: nat)
    requires IsTree(spans) && j < |spans|
    ensures Above(spans, 0, j)
    decreases j
  {
    assert ParentOk(spans, j);
    if j != 0 { RootIsAbove(spans, spans[j].parent.value); }
  }

  lemma {:induction false} OwnTotalUpdate(spans: seq<Span>, i: nat, s: Span)
    requires i < |spans|
    ensures OwnTotal(spans[i := s]) == OwnTotal(spans) - Own(spans[i]) + Own(s)
  {
    var n := |spans| - 1;
    if i < n {
      assert spans[i := s][..n] == spans[..n][i := s];
      OwnTotalUpdate(spans[..n], i, s);
    } else {
      assert spans[i := s][..n] == spans[..n];
    }
  }

  /** In every tree the recursive total of the root is the plain sum over the
      table: no span is missed and none is counted twice. */
  lemma {:induction false} RootTotalIsOwnTotal(spans: seq<Span>)
    requires IsTree(spans)
    ensures TreeTotal(spans, 0) == OwnTotal(spans)
    decreases Left(spans, 0)
  {
    var n := |spans| - 1;
    if n == 0 {
      LeafTotal(spans, 0);
      assert spans[..0] == [];
    } else {
      RootTotalIsOwnTotal(Peel(spans));
      PeelTotal(spans, 0);
      RootIsAbove(spans, n);
      assert ParentOk(spans, n);
      var p := spans[n].parent.value;
      OwnTotalUpdate(spans[..n], p, Peel(spans)[p]);
    }
  }
}
