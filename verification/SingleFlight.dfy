/** Cache and single flight together (`Cache.get_or_set` and `single_flight` of
    `rsi_arena/core/cache.py`, as `LLMClient._dispatch` uses them).

    A move is one stretch of code between two awaits, and a run is any sequence
    of moves that the code allows: any number of callers, any interleaving of
    arrivals, results, failures and cancellations. The lock of the cache is
    never contended, so looking up and joining or leading is one stretch. */
module SingleFlight {
  import opened Prelude
  import opened Lru

  /** What a producer returns: Python's None, or a payload and what it cost. */
  datatype Value = Nothing | Payload(id: nat, usd: real)

  datatype Outcome = Got(value: Value) | Raised(error: nat)

  datatype How = Hit | Led | Followed(leader: nat) | Cancelled

  datatype Phase = Leading | Following(leader: nat) | Done(outcome: Outcome, how: How)

  datatype Caller = Caller(key: string, phase: Phase)

  /** `inflight` maps a key to the caller that leads it; `futures` holds the
      futures that are resolved, by leader. */
  datatype State = State(
    cache: seq<Entry<Value>>,
    callers: map<nat, Caller>,
    inflight: map<string, nat>,
    futures: map<nat, Outcome>)

  datatype Move =
    | Arrive(c: nat, key: string, now: real)
    | Return(c: nat, value: Value, ttl: Option<real>, now: real)
    | Raise(c: nat, error: nat)       // the producer raised, or its leader was cancelled
    | Wake(c: nat)                    // a follower resumes once the future is resolved
    | Cancel(c: nat, error: nat)      // a follower is cancelled; the shield keeps the leader
    | Touch(op: Op<Value>)            // someone else uses the cache, as a stream does

  const START: State := State([], map[], map[], map[])

  predicate Can(s: State, m: Move) {
    match m
    case Arrive(c, _, _) => c !in s.callers
    case Return(c, _, _, _) => c in s.callers && s.callers[c].phase.Leading?
    case Raise(c, _) => c in s.callers && s.callers[c].phase.Leading?
    case Wake(c) =>
      c in s.callers && s.callers[c].phase.Following? && s.callers[c].phase.leader in s.futures
    case Cancel(c, _) => c in s.callers && s.callers[c].phase.Following?
    case Touch(op) => op.Set? ==> op.value.Payload?
  }

  function Moved(s: State, c: nat, phase: Phase): State
    requires c in s.callers
  {
    s.(callers := s.callers[c := s.callers[c].(phase := phase)])
  }

  /** The leader resolves its future and takes its entry out of the table. */
  function Lands(s: State, c: nat, o: Outcome): State
    requires c in s.callers
  {
    Moved(s, c, Done(o, Led)).(
      futures := s.futures[c := o],
      inflight := s.inflight - {s.callers[c].key})
  }

  function Apply(s: State, max: nat, m: Move): State
    requires Can(s, m)
  {
    match m
    case Arrive(c, key, now) =>
      var hit := Answer(s.cache, key, now);
      var s1 := s.(cache := Step(s.cache, max, Get(key, now)));
      if hit.Some? && hit.value != Nothing then
        s1.(callers := s.callers[c := Caller(key, Done(Got(hit.value), Hit))])
      else if key in s.inflight then
        s1.(callers := s.callers[c := Caller(key, Following(s.inflight[key]))])
      else
        s1.(callers := s.callers[c := Caller(key, Leading)], inflight := s.inflight[key := c])
    case Return(c, value, ttl, now) =>
      Lands(s, c, Got(value)).(cache := Step(s.cache, max, Set(s.callers[c].key, value, ttl, now)))
    case Raise(c, error) => Lands(s, c, Raised(error))
    case Wake(c) =>
      var l := s.callers[c].phase.leader;
      Moved(s, c, Done(s.futures[l], Followed(l)))
    case Cancel(c, error) => Moved(s, c, Done(Raised(error), Cancelled))
    case Touch(op) => s.(cache := Step(s.cache, max, op))
  }

  predicate Run(max: nat, ms: seq<Move>)
    decreases ms, 0
  {
    ms == [] || (Run(max, ms[..|ms| - 1]) && Can(After(max, ms[..|ms| - 1]), ms[|ms| - 1]))
  }

  function After(max: nat, ms: seq<Move>): State
    requires Run(max, ms)
    decreases ms, 1
  {
    if ms == [] then START else Apply(After(max, ms[..|ms| - 1]), max, ms[|ms| - 1])
  }

  // ---- the invariant ----

  /** The table holds exactly the callers that lead, each under its own key. */
  ghost predicate TableOk(s: State) {
    && (forall k :: k in s.inflight ==>
          s.inflight[k] in s.callers && s.callers[s.inflight[k]] == Caller(k, Leading))
    && (forall c :: c in s.callers && s.callers[c].phase.Leading? ==>
          s.callers[c].key in s.inflight && s.inflight[s.callers[c].key] == c)
  }

  /** A resolved future is its leader's own outcome, and whoever follows or
      followed did so on its own key. */
  ghost predicate FuturesOk(s: State) {
    && (forall l :: l in s.futures ==> l in s.callers && s.callers[l].phase == Done(s.futures[l], Led))
    && (forall c :: c in s.callers ==> LeaderOk(s, s.callers[c]))
  }

  predicate LeaderOk(s: State, caller: Caller) {
    match caller.phase
    case Following(l) =>
      && l in s.callers && s.callers[l].key == caller.key
      && (s.callers[l].phase.Leading? || l in s.futures)
    case Done(o, Followed(l)) =>
      l in s.callers && s.callers[l].key == caller.key && l in s.futures && o == s.futures[l]
    case Done(o, Hit) => o.Got? && o.value.Payload?
    case _ => true
  }

  lemma MoveKeepsTable(s: State, max: nat, m: Move)
    requires TableOk(s) && Can(s, m)
    ensures TableOk(Apply(s, max, m))
  {
    hide Step, Answer;
    var s' := Apply(s, max, m);
    forall k | k in s'.inflight
      ensures s'.inflight[k] in s'.callers && s'.callers[s'.inflight[k]] == Caller(k, Leading)
    {
      if k in s.inflight { assert s.callers[s.inflight[k]] == Caller(k, Leading); }
    }
  }

  /** Callers stay, on their keys; a leader leads on or resolves its future; and
      a resolved future is what it was. */
  predicate Onward(s: State, s': State) {
    && (forall c :: c in s.callers ==>
          && c in s'.callers && s'.callers[c].key == s.callers[c].key
          && (s.callers[c].phase.Leading? ==> s'.callers[c].phase.Leading? || c in s'.futures))
    && (forall l :: l in s.futures ==> l in s'.futures && s'.futures[l] == s.futures[l])
  }

  lemma LeaderStays(s: State, s': State, caller: Caller)
    requires Onward(s, s') && LeaderOk(s, caller)
    ensures LeaderOk(s', caller)
  {
  }

  lemma MoveIsOnward(s: State, max: nat, m: Move)
    requires FuturesOk(s) && Can(s, m)
    ensures Onward(s, Apply(s, max, m))
  {
    hide Step, Answer, LeaderOk;
  }

  /** The one caller that a move changes follows a leader of its own key, or has
      what its leader has. */
  lemma MovedIsOk(s: State, max: nat, m: Move, c: nat)
    requires TableOk(s) && FuturesOk(s) && Can(s, m) && c in Apply(s, max, m).callers
    requires c !in s.callers || Apply(s, max, m).callers[c] != s.callers[c]
    ensures LeaderOk(Apply(s, max, m), Apply(s, max, m).callers[c])
  {
    hide Step;
    assert c in s.callers ==> LeaderOk(s, s.callers[c]);
  }

  lemma MoveKeepsFutures(s: State, max: nat, m: Move)
    requires TableOk(s) && FuturesOk(s) && Can(s, m)
    ensures FuturesOk(Apply(s, max, m))
  {
    hide Step, Answer, LeaderOk, Onward;
    var s' := Apply(s, max, m);
    MoveIsOnward(s, max, m);
    forall c | c in s'.callers ensures LeaderOk(s', s'.callers[c]) {
      if c in s.callers && s'.callers[c] == s.callers[c] {
        LeaderStays(s, s', s.callers[c]);
      } else {
        MovedIsOk(s, max, m, c);
      }
    }
  }

  /** At every point of every run the table and the futures are as they should. */
  lemma {:induction false} EveryPointOk(max: nat, ms: seq<Move>)
    requires Run(max, ms)
    ensures TableOk(After(max, ms)) && FuturesOk(After(max, ms))
  {
    if ms != [] {
      var before := ms[..|ms| - 1];
      EveryPointOk(max, before);
      MoveKeepsTable(After(max, before), max, ms[|ms| - 1]);
      MoveKeepsFutures(After(max, before), max, ms[|ms| - 1]);
    }
  }

  /** At most one producer per key is in flight, and a caller that followed has
      the outcome its own leader has, a failure included. */
  lemma SingleFlightSafe(max: nat, ms: seq<Move>, c: nat, d: nat)
    requires Run(max, ms) && c in After(max, ms).callers && d in After(max, ms).callers
    ensures var s := After(max, ms);
            var (a, b) := (s.callers[c], s.callers[d]);
            && (a.phase.Leading? && b.phase.Leading? && a.key == b.key ==> c == d)
            && (a.phase.Leading? <==> a.key in s.inflight && s.inflight[a.key] == c)
            && (a.phase.Done? && a.phase.how == Followed(d) ==>
                  b.key == a.key && b.phase == Done(a.phase.outcome, Led))
  {
    EveryPointOk(max, ms);
    var s := After(max, ms);
    assert LeaderOk(s, s.callers[c]);
  }

  // ---- how often a producer has to run ----

  /** Producer calls for `k` that returned a payload. */
  function Successes(max: nat, ms: seq<Move>, k: string): nat
    requires Run(max, ms)
  {
    if ms == [] then 0
    else
      var before, m := ms[..|ms| - 1], ms[|ms| - 1];
      Successes(max, before, k)
        + if m.Return? && m.value.Payload? && After(max, before).callers[m.c].key == k then 1 else 0
  }

  /** Whether a step of the cache takes `k` out: the entry was there, or was
      put there by this very step, and is there no longer. */
  predicate Drops(es: seq<Entry<Value>>, max: nat, op: Op<Value>, k: string) {
    (k in Keys(es) || (op.Set? && op.key == k)) && k !in Keys(Step(es, max, op))
  }

  /** What a move does to the cache, if anything. */
  function CacheOp(s: State, m: Move): Option<Op<Value>>
    requires Can(s, m)
  {
    match m
    case Arrive(_, key, now) => Some(Get(key, now))
    case Return(c, value, ttl, now) => Some(Set(s.callers[c].key, value, ttl, now))
    case Touch(op) => Some(op)
    case _ => None
  }

  /** Evictions, expiries and clears that took `k` out of the cache. */
  function Removals(max: nat, ms: seq<Move>, k: string): nat
    requires Run(max, ms)
  {
    if ms == [] then 0
    else
      var before, m := ms[..|ms| - 1], ms[|ms| - 1];
      var s := After(max, before);
      var op := CacheOp(s, m);
      Removals(max, before, k) + if op.Some? && Drops(s.cache, max, op.value, k) then 1 else 0
  }

  /** The cache holds a payload for `k`, expired or not. */
  predicate Holds(es: seq<Entry<Value>>, k: string) {
    var e := Find(es, k);
    e.Some? && e.value.value.Payload?
  }

  /** What a cache step does to one key. */
  lemma StepOn(es: seq<Entry<Value>>, max: nat, op: Op<Value>, k: string)
    requires Unique(es) && |es| <= max
    ensures var es' := Step(es, max, op);
            && (op.Get? && op.key == k && Holds(es, k) && Answer(es, k, op.now).None? ==> Drops(es, max, op, k))
            && (k in Keys(es') ==> Find(es', k) == if op.Set? && op.key == k then Some(EntryOf(op)) else Find(es, k))
            && (op.Set? && op.key == k ==> k in Keys(es') || Drops(es, max, op, k))
            && (Holds(es, k) && k !in Keys(es') ==> Drops(es, max, op, k))
  {
    var es' := Step(es, max, op);
    StepKeepsBound(es, max, op);
    if !op.Clear? { RemoveKeys(es, op.key); }
    if k in Keys(es') {
      var e := Find(es', k).value;
      assert e in es';
      if e in es { OnlyEntry(es, e, Find(es, k).value); }
      if op.Set? && op.key == k {
        assert k !in Keys(Remove(es, k));
        assert forall x :: x in Remove(es, k) ==> x.key in Keys(Remove(es, k));
      }
    }
  }

  /** The account behind the bound: a payload that was produced is still in the
      cache, or was taken out; and while a key is in flight nothing is owed. */
  ghost predicate Accounted(max: nat, ms: seq<Move>, k: string)
    requires Run(max, ms)
  {
    var s := After(max, ms);
    && Successes(max, ms, k) <= Removals(max, ms, k) + (if Holds(s.cache, k) then 1 else 0)
    && (k in s.inflight ==> Successes(max, ms, k) <= Removals(max, ms, k))
  }

  lemma {:induction false} CacheKeepsBound(max: nat, ms: seq<Move>)
    requires Run(max, ms)
    ensures Unique(After(max, ms).cache) && |After(max, ms).cache| <= max
  {
    if ms != [] {
      var before, m := ms[..|ms| - 1], ms[|ms| - 1];
      CacheKeepsBound(max, before);
      var s := After(max, before);
      if CacheOp(s, m).Some? { StepKeepsBound(s.cache, max, CacheOp(s, m).value); }
    }
  }

  lemma {:induction false} AlwaysAccounted(max: nat, ms: seq<Move>, k: string)
    requires Run(max, ms)
    ensures Accounted(max, ms, k)
  {
    hide Step, Unique, Find;
    if ms != [] {
      var before, m := ms[..|ms| - 1], ms[|ms| - 1];
      AlwaysAccounted(max, before, k);
      CacheKeepsBound(max, before);
      EveryPointOk(max, before);
      var s := After(max, before);
      if CacheOp(s, m).Some? { StepOn(s.cache, max, CacheOp(s, m).value, k); }
    }
  }

  /** Over any interleaving: the payloads produced for a key are at most one
      more than the times the cache lost the key. */
  lemma ProducedAtMostOnce(max: nat, ms: seq<Move>, k: string)
    requires Run(max, ms)
    ensures Successes(max, ms, k) <= 1 + Removals(max, ms, k)
  {
    AlwaysAccounted(max, ms, k);
  }

  // ---- whose answer a caller gets ----

  /** A producer that leads `key` returned `value`, or someone else put it into
      the cache under that key. */
  predicate Brought(max: nat, ms: seq<Move>, key: string, value: Value)
    requires Run(max, ms)
  {
    ms != [] &&
    var before, m := ms[..|ms| - 1], ms[|ms| - 1];
    || Brought(max, before, key, value)
    || BringsNow(After(max, before), m, key, value)
  }

  predicate BringsNow(s: State, m: Move, key: string, value: Value)
    requires Can(s, m)
  {
    || (m.Return? && m.value == value && s.callers[m.c].key == key)
    || (m.Touch? && m.op.Set? && m.op.key == key && m.op.value == value)
  }

  lemma {:induction false} CacheWasBrought(max: nat, ms: seq<Move>, k: string)
    requires Run(max, ms)
    ensures k in Keys(After(max, ms).cache) ==> Brought(max, ms, k, Find(After(max, ms).cache, k).value.value)
  {
    hide Step, Unique, Find;
    if ms != [] {
      var before, m := ms[..|ms| - 1], ms[|ms| - 1];
      CacheWasBrought(max, before, k);
      CacheKeepsBound(max, before);
      var s := After(max, before);
      if CacheOp(s, m).Some? { StepOn(s.cache, max, CacheOp(s, m).value, k); }
    }
  }

  /** What a caller has, if anything, was brought for its key. */
  predicate OwnAnswer(max: nat, ms: seq<Move>, caller: Caller)
    requires Run(max, ms)
  {
    caller.phase.Done? && caller.phase.outcome.Got? ==> Brought(max, ms, caller.key, caller.phase.outcome.value)
  }

  /** In any interleaving a caller asks for the key it arrived with, and the value
      it ends with, by a hit, its own producer or the one it followed, was brought
      for that key: no caller is handed the answer of another. */
  lemma {:induction false} NobodyElsesAnswer(max: nat, ms: seq<Move>, c: nat)
    requires Run(max, ms) && c in After(max, ms).callers
    ensures exists now :: Arrive(c, After(max, ms).callers[c].key, now) in ms
    ensures OwnAnswer(max, ms, After(max, ms).callers[c])
  {
    hide Step, Find, Brought;
    var before, m := ms[..|ms| - 1], ms[|ms| - 1];
    var s, s' := After(max, before), After(max, ms);
    assert ms == before + [m];
    BroughtOn(max, ms);
    if m.Arrive? && m.c == c {
      assert Arrive(c, s'.callers[c].key, m.now) in ms;
      CacheWasBrought(max, before, m.key);
    } else {
      NobodyElsesAnswer(max, before, c);
      var now :| Arrive(c, s.callers[c].key, now) in before;
      assert Arrive(c, s'.callers[c].key, now) in ms;
      if m.Wake? && m.c == c {
        EveryPointOk(max, before);
        NobodyElsesAnswer(max, before, s.callers[c].phase.leader);
      }
    }
  }

  lemma BroughtOn(max: nat, ms: seq<Move>)
    requires Run(max, ms) && ms != []
    ensures var before, m := ms[..|ms| - 1], ms[|ms| - 1];
            forall key, value :: Brought(max, ms, key, value) <==>
              Brought(max, before, key, value) || BringsNow(After(max, before), m, key, value)
  {
  }

  // ---- what the callers of one flight are billed ----

  function Usd(o: Outcome): real {
    if o.Got? && o.value.Payload? then o.value.usd else 0.0
  }

  /** What a move records in the ledger for the flight of `l`: its leader and
      each follower that resumes record the whole cost, a hit records zero. */
  function Records(s: State, m: Move, l: nat): real
    requires Can(s, m)
  {
    match m
    case Return(c, value, _, _) => if c == l then Usd(Got(value)) else 0.0
    case Wake(c) => if s.callers[c].phase.leader == l then Usd(s.futures[l]) else 0.0
    case _ => 0.0
  }

  function Billed(max: nat, ms: seq<Move>, l: nat): real
    requires Run(max, ms)
  {
    if ms == [] then 0.0
    else Billed(max, ms[..|ms| - 1], l) + Records(After(max, ms[..|ms| - 1]), ms[|ms| - 1], l)
  }

  /** Followers of `l` that resumed. */
  function Delivered(max: nat, ms: seq<Move>, l: nat): nat
    requires Run(max, ms)
  {
    if ms == [] then 0
    else
      var before, m := ms[..|ms| - 1], ms[|ms| - 1];
      Delivered(max, before, l) + if Resumes(After(max, before), m, l) then 1 else 0
  }

  predicate Resumes(s: State, m: Move, l: nat)
    requires Can(s, m)
  {
    m.Wake? && s.callers[m.c].phase.leader == l
  }

  lemma RecordsStep(s: State, max: nat, m: Move, l: nat)
    requires TableOk(s) && FuturesOk(s) && Can(s, m)
    ensures var s' := Apply(s, max, m);
            && (l in s.futures ==> l in s'.futures && s'.futures[l] == s.futures[l])
            && (l in s.futures && !Resumes(s, m, l) ==> Records(s, m, l) == 0.0)
            && (Resumes(s, m, l) ==> l in s.futures && Records(s, m, l) == Usd(s.futures[l]))
            && (l !in s.futures ==> Records(s, m, l) == if l in s'.futures then Usd(s'.futures[l]) else 0.0)
  {
  }

  /** One producer call is billed once for its leader and once more for every
      follower that got its result: a follower counts as not cached. */
  lemma {:induction false} FollowersPayAgain(max: nat, ms: seq<Move>, l: nat)
    requires Run(max, ms)
    ensures var s := After(max, ms);
            Billed(max, ms, l) ==
              if l in s.futures then Usd(s.futures[l]) * (1 + Delivered(max, ms, l)) as real else 0.0
    ensures l !in After(max, ms).futures ==> Delivered(max, ms, l) == 0
  {
    hide Apply, Can, Records, Usd;
    if ms != [] {
      var before, m := ms[..|ms| - 1], ms[|ms| - 1];
      FollowersPayAgain(max, before, l);
      EveryPointOk(max, before);
      var s := After(max, before);
      RecordsStep(s, max, m, l);
      if Resumes(s, m, l) {
        var u, n := Usd(s.futures[l]), (1 + Delivered(max, before, l)) as real;
        assert u * (n + 1.0) == u * n + u;
      }
    }
  }

  // ---- the objects ----

  /** The cache and the module's tables, one method for each stretch. */
  class Broker {
    const cache: MemoryCache<Value>
    var callers: map<nat, Caller>
    var inflight: map<string, nat>
    var futures: map<nat, Outcome>

    function View(): State
      reads this, cache
    {
      State(cache.data, callers, inflight, futures)
    }

    constructor (cache: MemoryCache<Value>)
      requires cache.data == []
      ensures View() == START && this.cache == cache
    {
      this.cache := cache;
      callers, inflight, futures := map[], map[], map[];
    }

    /** Up to the first await: a hit, a place behind the leader, or the lead. */
    method Enter(c: nat, key: string, now: real)
      requires Can(View(), Arrive(c, key, now))
      modifies this, cache
      ensures View() == Apply(old(View()), cache.maxEntries, Arrive(c, key, now))
    {
      hide Step;
      var hit := cache.Lookup(key, now);
      if hit.Some? && hit.value != Nothing {
        callers := callers[c := Caller(key, Done(Got(hit.value), Hit))];
        return;
      }
      if key in inflight {
        callers := callers[c := Caller(key, Following(inflight[key]))];
        return;
      }
      inflight := inflight[key := c];
      callers := callers[c := Caller(key, Leading)];
    }

    method Finish(c: nat, value: Value, ttl: Option<real>, now: real)
      requires Can(View(), Return(c, value, ttl, now))
      modifies this, cache
      ensures View() == Apply(old(View()), cache.maxEntries, Return(c, value, ttl, now))
    {
      hide Step;
      var key := callers[c].key;
      cache.Store(key, value, ttl, now);
      futures := futures[c := Got(value)];
      callers := callers[c := Caller(key, Done(Got(value), Led))];
      inflight := inflight - {key};
    }

    method Fail(c: nat, error: nat)
      requires Can(View(), Raise(c, error))
      modifies this
      ensures View() == Apply(old(View()), cache.maxEntries, Raise(c, error))
    {
      var key := callers[c].key;
      futures := futures[c := Raised(error)];
      callers := callers[c := Caller(key, Done(Raised(error), Led))];
      inflight := inflight - {key};
    }

    method Resume(c: nat)
      requires Can(View(), Wake(c))
      modifies this
      ensures View() == Apply(old(View()), cache.maxEntries, Wake(c))
    {
      var l := callers[c].phase.leader;
      callers := callers[c := callers[c].(phase := Done(futures[l], Followed(l)))];
    }
  }
}
