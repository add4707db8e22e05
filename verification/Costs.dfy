/** The ledger of one agent run (`rsi_arena/core/costs.py`). */
module Costs {
  import opened Prelude

  datatype Kind = LlmCall | ApiCall | ToolCharge

  datatype Cost = Cost(usd: real, cached: bool)

  /** One line of the ledger; `span` is the trace node the cost was put on. */
  datatype Record = Record(kind: Kind, name: string, cost: Cost, span: nat)

  function Total(records: seq<Record>): real {
    if records == [] then 0.0
    else Total(records[..|records| - 1]) + records[|records| - 1].cost.usd
  }

  lemma TotalSnoc(records: seq<Record>, r: Record)
    ensures Total(records + [r]) == Total(records) + r.cost.usd
  {
    assert (records + [r])[..|records|] == records;
  }

  predicate AllCharged(records: seq<Record>) {
    forall i :: 0 <= i < |records| ==> records[i].cost.usd >= 0.0
  }

  datatype Ledger = Ledger(
    maxUsd: Option<real>,
    maxCalls: Option<int>,
    reserveUsd: real,
    reserveOpen: bool,
    records: seq<Record>)
  {
    function Spent(): real {
      Total(records)
    }

    /** The ceiling in force, the reserve included once it is open. */
    function Limit(): Option<real> {
      if maxUsd.None? then None
      else if reserveOpen then Some(maxUsd.value + reserveUsd)
      else maxUsd
    }

    /** The ceiling has been crossed: what makes `add` raise. */
    predicate Over() {
      Limit().Some? && Spent() > Limit().value
    }

    /** What makes the pre-flight `check` raise. */
    predicate Refuses() {
      || (maxCalls.Some? && |records| >= maxCalls.value)
      || (Limit().Some? && Spent() >= Limit().value)
    }

    function Add(r: Record): Ledger {
      this.(records := records + [r])
    }

    function OpenReserve(): Ledger {
      this.(reserveOpen := true, maxCalls := None)
    }

    function ReserveSpent(): real {
      if maxUsd.None? then 0.0 else Max(0.0, Spent() - maxUsd.value)
    }
  }

  /** What was spent of the reserve is what exceeds the plain ceiling. */
  lemma ReserveSpentIs(l: Ledger)
    ensures l.maxUsd.None? ==> l.ReserveSpent() == 0.0
    ensures l.maxUsd.Some? && l.Spent() <= l.maxUsd.value ==> l.ReserveSpent() == 0.0
    ensures l.maxUsd.Some? && l.Spent() > l.maxUsd.value ==> l.maxUsd.value + l.ReserveSpent() == l.Spent()
  {
  }

  // ---- breakdowns by a field of the records ----

  /** The records whose field is `k`, in order. */
  function With<K(==)>(records: seq<Record>, field: Record -> K, k: K): seq<Record> {
    if records == [] then []
    else
      var rest := With(records[..|records| - 1], field, k);
      var last := records[|records| - 1];
      if field(last) == k then rest + [last] else rest
  }

  function FieldsOf<K(==)>(records: seq<Record>, field: Record -> K): set<K> {
    if records == [] then {} else FieldsOf(records[..|records| - 1], field) + {field(records[|records| - 1])}
  }

  function Breakdown<K(==)>(records: seq<Record>, field: Record -> K): map<K, real> {
    if records == [] then map[]
    else
      var out, r := Breakdown(records[..|records| - 1], field), records[|records| - 1];
      out[field(r) := (if field(r) in out then out[field(r)] else 0.0) + r.cost.usd]
  }

  /** The breakdown has exactly the values the field takes, each with the total
      of its own records. */
  lemma {:induction false} BreakdownIsGrouped<K>(records: seq<Record>, field: Record -> K)
    ensures Breakdown(records, field).Keys == FieldsOf(records, field)
    ensures forall k :: k in Breakdown(records, field) ==>
              Breakdown(records, field)[k] == Total(With(records, field, k))
  {
    hide Total, With;
    if records != [] {
      var init, r := records[..|records| - 1], records[|records| - 1];
      assert init + [r] == records;
      BreakdownIsGrouped(init, field);
      if field(r) !in FieldsOf(init, field) { UnseenIsNothing(init, field, field(r)); }
      forall k | k in Breakdown(records, field)
        ensures Breakdown(records, field)[k] == Total(With(records, field, k))
      {
        OwnTotalSnoc(init, r, field, k);
      }
    }
  }

  lemma OwnTotalSnoc<K>(records: seq<Record>, r: Record, field: Record -> K, k: K)
    ensures Total(With(records + [r], field, k)) ==
            Total(With(records, field, k)) + (if field(r) == k then r.cost.usd else 0.0)
  {
    assert (records + [r])[..|records|] == records;
    TotalSnoc(With(records, field, k), r);
  }

  lemma {:induction false} UnseenIsNothing<K>(records: seq<Record>, field: Record -> K, k: K)
    requires k !in FieldsOf(records, field)
    ensures Total(With(records, field, k)) == 0.0
  {
    if records != [] { UnseenIsNothing(records[..|records| - 1], field, k); }
  }

  /** What the records of each listed value cost, summed over the list. */
  function GroupedTotal<K(==)>(records: seq<Record>, field: Record -> K, ks: seq<K>): real {
    if ks == [] then 0.0
    else GroupedTotal(records, field, ks[1..]) + Total(With(records, field, ks[0]))
  }

  predicate Distinct<T(==)>(xs: seq<T>) {
    forall i, j :: 0 <= i < j < |xs| ==> xs[i] != xs[j]
  }

  lemma {:induction false} GroupedSnoc<K>(records: seq<Record>, r: Record, field: Record -> K, ks: seq<K>)
    requires Distinct(ks)
    ensures GroupedTotal(records + [r], field, ks) ==
            GroupedTotal(records, field, ks) + (if field(r) in ks then r.cost.usd else 0.0)
  {
    assert (records + [r])[..|records|] == records;
    if ks != [] {
      GroupedSnoc(records, r, field, ks[1..]);
      if ks[0] == field(r) {
        TotalSnoc(With(records, field, field(r)), r);
        assert field(r) !in ks[1..];
      }
    }
  }

  /** The breakdown loses nothing: over any list of distinct values that covers
      the ledger, the group totals add up to the whole. */
  lemma {:induction false} BreakdownConserves<K>(records: seq<Record>, field: Record -> K, ks: seq<K>)
    requires Distinct(ks)
    requires forall k :: k in FieldsOf(records, field) ==> k in ks
    ensures GroupedTotal(records, field, ks) == Total(records)
  {
    if records == [] {
      EmptyBreakdown(field, ks);
    } else {
      var init, last := records[..|records| - 1], records[|records| - 1];
      assert records == init + [last];
      BreakdownConserves(init, field, ks);
      GroupedSnoc(init, last, field, ks);
    }
  }

  lemma {:induction false} EmptyBreakdown<K>(field: Record -> K, ks: seq<K>)
    ensures GroupedTotal([], field, ks) == 0.0
  {
    if ks != [] { EmptyBreakdown(field, ks[1..]); }
  }

  /** Spending never goes down as records land. */
  lemma {:induction false} TotalMonotone(records: seq<Record>, more: seq<Record>)
    requires AllCharged(more)
    ensures Total(records) <= Total(records + more)
  {
    if more == [] {
      assert records + more == records;
    } else {
      var init, last := more[..|more| - 1], more[|more| - 1];
      TotalMonotone(records, init);
      assert records + more == (records + init) + [last];
      TotalSnoc(records + init, last);
    }
  }

  class CostTracker {
    const maxUsd: Option<real>
    var maxCalls: Option<int>
    const reserveUsd: real
    var reserveOpen: bool
    var records: seq<Record>

    function View(): Ledger
      reads this
    {
      Ledger(maxUsd, maxCalls, reserveUsd, reserveOpen, records)
    }

    constructor (maxUsd: Option<real>, maxCalls: Option<int>, reserveUsd: real)
      ensures View() == Ledger(maxUsd, maxCalls, reserveUsd, false, [])
    {
      this.maxUsd, this.maxCalls, this.reserveUsd := maxUsd, maxCalls, reserveUsd;
      reserveOpen, records := false, [];
    }

    /** Appends first and compares afterwards, so a refused record is kept. */
    method Add(r: Record) returns (raised: bool)
      modifies this
      ensures View() == old(View()).Add(r)
      ensures raised <==> maxUsd.Some? && Total(records) > maxUsd.value + (if reserveOpen then reserveUsd else 0.0)
      ensures raised <==> View().Over()
    {
      records := records + [r];
      var limit := View().Limit();
      raised := limit.Some? && Total(records) > limit.value;
    }

    method Check() returns (raised: bool)
      ensures raised <==>
                || (maxCalls.Some? && |records| >= maxCalls.value)
                || (maxUsd.Some? && Total(records) >= maxUsd.value + if reserveOpen then reserveUsd else 0.0)
      ensures raised <==> View().Refuses()
    {
      if maxCalls.Some? && |records| >= maxCalls.value {
        return true;
      }
      var limit := View().Limit();
      return limit.Some? && Total(records) >= limit.value;
    }

    method OpenReserve() returns (allowance: real)
      modifies this
      ensures View() == old(View()).OpenReserve()
      ensures reserveOpen && maxCalls.None? && records == old(records)
      ensures allowance >= 0.0
      ensures maxUsd.Some? && View().Spent() <= maxUsd.value + reserveUsd
              ==> View().Spent() + allowance == maxUsd.value + reserveUsd
      ensures View().Over() ==> allowance == 0.0
      ensures maxUsd.None? ==> allowance == Max(0.0, -View().Spent())
    {
      reserveOpen := true;
      maxCalls := None;
      var limit := View().Limit();
      allowance := Max(0.0, (if limit.Some? then limit.value else 0.0) - Total(records));
    }

    method By<K(==)>(field: Record -> K) returns (out: map<K, real>)
      ensures out == Breakdown(records, field)
    {
      out := map[];
      var i := 0;
      while i < |records|
        invariant 0 <= i <= |records|
        invariant out == Breakdown(records[..i], field)
      {
        var key, usd := field(records[i]), records[i].cost.usd;
        assert records[..i + 1][..i] == records[..i];
        out := out[key := (if key in out then out[key] else 0.0) + usd];
        i := i + 1;
      }
      assert records[..i] == records;
    }
  }
}
