/** The bounded cache with expiry (`MemoryCache` of `rsi_arena/core/cache.py`).
    Entries are kept in order of use, the one to be evicted next first. */
module Lru {
  import opened Prelude

  datatype Entry<V> = Entry(key: string, value: V, expires: Option<real>)

  /** `expires_at < now`: an entry is still good at its very expiry time. */
  predicate Expired<V>(e: Entry<V>, now: real) {
    e.expires.Some? && e.expires.value < now
  }

  function Keys<V>(es: seq<Entry<V>>): set<string> {
    set i | 0 <= i < |es| :: es[i].key
  }

  predicate Unique<V>(es: seq<Entry<V>>) {
    forall i, j :: 0 <= i < j < |es| ==> es[i].key != es[j].key
  }

  function Find<V>(es: seq<Entry<V>>, key: string): (r: Option<Entry<V>>)
    ensures r.Some? <==> key in Keys(es)
    ensures r.Some? ==> r.value in es && r.value.key == key
  {
    if es == [] then None
    else if es[|es| - 1].key == key then Some(es[|es| - 1])
    else
      var r := Find(es[..|es| - 1], key);
      assert forall i :: 0 <= i < |es| ==> i == |es| - 1 || es[..|es| - 1][i] == es[i];
      r
  }

  /** The entries whose key is in `keys`, their order kept. */
  function Restrict<V>(es: seq<Entry<V>>, keys: set<string>): seq<Entry<V>> {
    if es == [] then []
    else Restrict(es[..|es| - 1], keys)
           + if es[|es| - 1].key in keys then [es[|es| - 1]] else []
  }

  function Remove<V>(es: seq<Entry<V>>, key: string): seq<Entry<V>> {
    if es == [] then []
    else Remove(es[..|es| - 1], key)
           + if es[|es| - 1].key == key then [] else [es[|es| - 1]]
  }

  /** Strict eviction: the least recently used go first. */
  function Evict<V>(es: seq<Entry<V>>, max: nat): seq<Entry<V>> {
    if |es| > max then es[|es| - max..] else es
  }

  // ---- the operations on values ----

  datatype Op<V> =
    | Get(key: string, now: real)
    | Set(key: string, value: V, ttl: Option<real>, now: real)
    | Clear

  function EntryOf<V>(op: Op<V>): Entry<V>
    requires op.Set?
  {
    Entry(op.key, op.value, if op.ttl.Some? then Some(op.now + op.ttl.value) else None)
  }

  /** What a get answers. */
  function Answer<V>(es: seq<Entry<V>>, key: string, now: real): Option<V> {
    var e := Find(es, key);
    if e.Some? && !Expired(e.value, now) then Some(e.value.value) else None
  }

  function Step<V>(es: seq<Entry<V>>, max: nat, op: Op<V>): seq<Entry<V>> {
    match op
    case Get(key, now) =>
      var e := Find(es, key);
      if e.None? then es
      else if Expired(e.value, now) then Remove(es, key)
      else Remove(es, key) + [e.value]
    case Set(key, _, _, _) => Evict(Remove(es, key) + [EntryOf(op)], max)
    case Clear => []
  }

  /** The contents after a history of operations on an empty cache. */
  function After<V>(max: nat, ops: seq<Op<V>>): seq<Entry<V>> {
    if ops == [] then [] else Step(After(max, ops[..|ops| - 1]), max, ops[|ops| - 1])
  }

  lemma EvictsOne<V>(es: seq<Entry<V>>, max: nat)
    requires |es| > max
    ensures Evict(es[1..], max) == Evict(es, max)
  {
  }

  // ---- the object ----

  class MemoryCache<V> {
    const maxEntries: nat
    var data: seq<Entry<V>>
    var hits: nat
    var misses: nat

    constructor (maxEntries: nat)
      ensures this.maxEntries == maxEntries && data == [] && hits == 0 && misses == 0
    {
      this.maxEntries := maxEntries;
      data, hits, misses := [], 0, 0;
    }

    method Lookup(key: string, now: real) returns (value: Option<V>)
      modifies this
      ensures data == Step(old(data), maxEntries, Get(key, now))
      ensures value == Answer(old(data), key, now)
      ensures hits == old(hits) + (if value.Some? then 1 else 0)
      ensures misses == old(misses) + (if value.Some? then 0 else 1)
    {
      var entry := Find(data, key);
      if entry.None? {
        misses := misses + 1;
        return None;
      }
      if Expired(entry.value, now) {
        data := Remove(data, key);
        misses := misses + 1;
        return None;
      }
      data := Remove(data, key) + [entry.value];
      hits := hits + 1;
      return Some(entry.value.value);
    }

    method Store(key: string, value: V, ttl: Option<real>, now: real)
      modifies this`data
      ensures data == Step(old(data), maxEntries, Set(key, value, ttl, now))
      ensures |data| <= maxEntries
    {
      hide Remove;
      data := Remove(data, key) + [Entry(key, value, if ttl.Some? then Some(now + ttl.value) else None)];
      ghost var kept := Evict(data, maxEntries);
      while |data| > maxEntries
        invariant Evict(data, maxEntries) == kept
      {
        EvictsOne(data, maxEntries);
        data := data[1..];
      }
    }

    method ClearAll()
      modifies this`data
      ensures data == Step(old(data), maxEntries, Clear)
    {
      data := [];
    }
  }

  // ---- algebra of the three filters ----

  lemma {:induction false} RemoveIsRestrict<V>(es: seq<Entry<V>>, key: string, keys: set<string>)
    requires key !in keys && Keys(es) <= keys + {key}
    ensures Remove(es, key) == Restrict(es, keys)
  {
    if es != [] {
      KeysSnoc(es[..|es| - 1], es[|es| - 1]);
      assert es == es[..|es| - 1] + [es[|es| - 1]];
      RemoveIsRestrict(es[..|es| - 1], key, keys);
    }
  }

  lemma KeysSnoc<V>(es: seq<Entry<V>>, e: Entry<V>)
    ensures Keys(es + [e]) == Keys(es) + {e.key}
  {
    forall i | 0 <= i < |es| ensures es[i].key in Keys(es + [e]) {
      assert (es + [e])[i] == es[i];
    }
    assert (es + [e])[|es|] == e;
  }

  lemma {:induction false} RestrictKeys<V>(es: seq<Entry<V>>, keys: set<string>)
    ensures Keys(Restrict(es, keys)) == Keys(es) * keys
    ensures Unique(es) ==> Unique(Restrict(es, keys))
    ensures |Restrict(es, keys)| <= |es|
    ensures forall e :: e in Restrict(es, keys) ==> e in es
  {
    if es != [] {
      var init, last := es[..|es| - 1], es[|es| - 1];
      assert es == init + [last];
      RestrictKeys(init, keys);
      KeysSnoc(init, last);
      KeysSnoc(Restrict(init, keys), last);
      assert last.key !in keys ==> Restrict(es, keys) == Restrict(init, keys);
      if Unique(es) { LastIsNew(init, last); }
    }
  }

  lemma LastIsNew<V>(es: seq<Entry<V>>, e: Entry<V>)
    requires Unique(es + [e])
    ensures Unique(es) && e.key !in Keys(es)
  {
    forall i | 0 <= i < |es| ensures es[i].key != e.key {
      assert (es + [e])[i] == es[i] && (es + [e])[|es|] == e;
    }
    forall i, j | 0 <= i < j < |es| ensures es[i].key != es[j].key {
      assert (es + [e])[i] == es[i] && (es + [e])[j] == es[j];
    }
  }

  lemma SnocUnique<V>(es: seq<Entry<V>>, e: Entry<V>)
    requires Unique(es) && e.key !in Keys(es)
    ensures Unique(es + [e])
  {
  }

  lemma RemoveKeys<V>(es: seq<Entry<V>>, key: string)
    ensures Keys(Remove(es, key)) == Keys(es) - {key}
    ensures Unique(es) ==> Unique(Remove(es, key))
    ensures forall e :: e in Remove(es, key) ==> e in es
  {
    RemoveIsRestrict(es, key, Keys(es) - {key});
    RestrictKeys(es, Keys(es) - {key});
  }

  lemma {:induction false} RemoveLength<V>(es: seq<Entry<V>>, key: string)
    requires Unique(es)
    ensures |Remove(es, key)| == |es| - (if key in Keys(es) then 1 else 0)
  {
    if es != [] {
      var init, last := es[..|es| - 1], es[|es| - 1];
      assert es == init + [last];
      KeysSnoc(init, last);
      LastIsNew(init, last);
      RemoveLength(init, key);
    }
  }

  lemma {:induction false} RestrictRestrict<V>(es: seq<Entry<V>>, a: set<string>, b: set<string>)
    ensures Restrict(Restrict(es, a), b) == Restrict(es, a * b)
  {
    if es != [] {
      var init, last := es[..|es| - 1], es[|es| - 1];
      RestrictRestrict(init, a, b);
      if last.key in a {
        assert (Restrict(init, a) + [last])[..|Restrict(init, a)|] == Restrict(init, a);
      } else {
        assert Restrict(init, a) + [] == Restrict(init, a);
      }
    }
  }

  lemma RestrictSnoc<V>(es: seq<Entry<V>>, e: Entry<V>, keys: set<string>)
    ensures Restrict(es + [e], keys) == Restrict(es, keys) + if e.key in keys then [e] else []
  {
    assert (es + [e])[..|es|] == es;
  }

  lemma {:induction false} RestrictSame<V>(es: seq<Entry<V>>, a: set<string>, b: set<string>)
    requires Keys(es) * a == Keys(es) * b
    ensures Restrict(es, a) == Restrict(es, b)
  {
    if es != [] {
      var init, last := es[..|es| - 1], es[|es| - 1];
      assert es == init + [last];
      KeysSnoc(init, last);
      assert last.key in Keys(es);
      assert last.key in Keys(es) * a <==> last.key in Keys(es) * b;
      forall k | k in Keys(init) * a ensures k in b { assert k in Keys(es) * a; }
      forall k | k in Keys(init) * b ensures k in a { assert k in Keys(es) * b; }
      assert Keys(init) * a == Keys(init) * b;
      RestrictSame(init, a, b);
    }
  }

  lemma {:induction false} RestrictAll<V>(es: seq<Entry<V>>, keys: set<string>)
    requires Keys(es) <= keys
    ensures Restrict(es, keys) == es
  {
    if es != [] {
      var init, last := es[..|es| - 1], es[|es| - 1];
      assert es == init + [last];
      KeysSnoc(init, last);
      RestrictAll(init, keys);
    }
  }

  lemma {:induction false} RestrictConcat<V>(a: seq<Entry<V>>, b: seq<Entry<V>>, keys: set<string>)
    ensures Restrict(a + b, keys) == Restrict(a, keys) + Restrict(b, keys)
  {
    if b == [] {
      assert a + b == a;
    } else {
      var init, last := b[..|b| - 1], b[|b| - 1];
      RestrictConcat(a, init, keys);
      assert a + b == (a + init) + [last];
      RestrictSnoc(a + init, last, keys);
    }
  }

  lemma RestrictDropFirst<V>(es: seq<Entry<V>>, keys: set<string>)
    requires es != []
    ensures Restrict(es, keys) == (if es[0].key in keys then [es[0]] else []) + Restrict(es[1..], keys)
  {
    assert es == [es[0]] + es[1..];
    RestrictConcat([es[0]], es[1..], keys);
    assert [es[0]][..0] == [];
  }

  // ---- every reachable cache ----

  /** Keys are unique and the bound is kept, after every operation. */
  lemma {:induction false} AfterKeepsBound<V>(max: nat, ops: seq<Op<V>>)
    ensures Unique(After(max, ops)) && |After(max, ops)| <= max
  {
    if ops != [] {
      AfterKeepsBound(max, ops[..|ops| - 1]);
      StepKeepsBound(After(max, ops[..|ops| - 1]), max, ops[|ops| - 1]);
    }
  }

  lemma StepKeepsBound<V>(es: seq<Entry<V>>, max: nat, op: Op<V>)
    requires Unique(es) && |es| <= max
    ensures Unique(Step(es, max, op)) && |Step(es, max, op)| <= max
  {
    match op
    case Get(key, now) =>
      RemoveKeys(es, key);
      RemoveLength(es, key);
      if Find(es, key).Some? { SnocUnique(Remove(es, key), Find(es, key).value); }
    case Set(key, _, _, _) =>
      RemoveKeys(es, key);
      SnocUnique(Remove(es, key), EntryOf(op));
    case Clear =>
  }

  /** The last set of a key in a history, unless the cache was cleared since. */
  function LastSet<V>(ops: seq<Op<V>>, key: string): Option<Entry<V>> {
    if ops == [] then None
    else
      var op := ops[|ops| - 1];
      if op.Clear? then None
      else if op.Set? && op.key == key then Some(EntryOf(op))
      else LastSet(ops[..|ops| - 1], key)
  }

  lemma {:induction false} EntriesAreLastSet<V>(max: nat, ops: seq<Op<V>>)
    ensures forall e :: e in After(max, ops) ==> LastSet(ops, e.key) == Some(e)
  {
    if ops != [] {
      var before, op := ops[..|ops| - 1], ops[|ops| - 1];
      EntriesAreLastSet(max, before);
      var es := After(max, before);
      if !op.Clear? { RemoveKeys(es, op.key); }
      forall e | e in After(max, ops) ensures LastSet(ops, e.key) == Some(e) {
        if op.Set? && e != EntryOf(op) {
          assert e in Remove(es, op.key);
          assert e.key in Keys(Remove(es, op.key));
        }
      }
    }
  }

  /** A hit returns the last value set for the key, never an expired one. */
  lemma HitIsLastSet<V>(max: nat, ops: seq<Op<V>>, key: string, now: real)
    ensures var v := Answer(After(max, ops), key, now);
            v.Some? ==>
              && LastSet(ops, key).Some?
              && LastSet(ops, key).value.value == v.value
              && !Expired(LastSet(ops, key).value, now)
  {
    EntriesAreLastSet(max, ops);
  }

  // ---- inclusion ----

  /** A cache of bound `m` beside one of bound `n` on the same history: its
      entries are entries of the larger one, in the same order. */
  ghost predicate Included<V>(s: seq<Entry<V>>, l: seq<Entry<V>>, m: nat, n: nat) {
    && Unique(s) && Unique(l)
    && s == Restrict(l, Keys(s))
    && |s| <= m && |l| <= n
    && |l| - |s| <= n - m
  }

  lemma RestrictRemove<V>(l: seq<Entry<V>>, key: string, keys: set<string>)
    ensures Restrict(Remove(l, key), keys) == Restrict(l, keys - {key})
    ensures Remove(Restrict(l, keys), key) == Restrict(l, keys - {key})
  {
    RemoveIsRestrict(l, key, Keys(l) - {key});
    RestrictRestrict(l, Keys(l) - {key}, keys);
    RestrictSame(l, (Keys(l) - {key}) * keys, keys - {key});
    var r := Restrict(l, keys);
    RestrictKeys(l, keys);
    RemoveIsRestrict(r, key, Keys(r) - {key});
    RestrictRestrict(l, keys, Keys(r) - {key});
    RestrictSame(l, keys * (Keys(r) - {key}), keys - {key});
  }

  lemma SmallerFinds<V>(s: seq<Entry<V>>, l: seq<Entry<V>>, key: string)
    requires Unique(l) && s == Restrict(l, Keys(s)) && key in Keys(s)
    ensures key in Keys(l) && Find(l, key) == Find(s, key)
  {
    RestrictKeys(l, Keys(s));
    OnlyEntry(l, Find(s, key).value, Find(l, key).value);
  }

  lemma OnlyEntry<V>(es: seq<Entry<V>>, a: Entry<V>, b: Entry<V>)
    requires Unique(es) && a in es && b in es && a.key == b.key
    ensures a == b
  {
  }

  lemma GetKeepsIncluded<V>(s: seq<Entry<V>>, l: seq<Entry<V>>, m: nat, n: nat, key: string, now: real)
    requires Included(s, l, m, n)
    ensures Included(Step(s, m, Get(key, now)), Step(l, n, Get(key, now)), m, n)
  {
    var op := Get(key, now);
    StepKeepsBound(s, m, op);
    StepKeepsBound(l, n, op);
    RemoveKeys(s, key);
    RemoveLength(s, key);
    RemoveLength(l, key);
    RestrictRemove(l, key, Keys(s));
    var s1, l1 := Remove(s, key), Remove(l, key);
    if key in Keys(s) {
      SmallerFinds(s, l, key);
      var e := Find(s, key).value;
      if !Expired(e, now) {
        KeysSnoc(s1, e);
        RestrictSnoc(l1, e, Keys(s1) + {key});
        RestrictRemove(l, key, Keys(s1) + {key});
        assert (Keys(s1) + {key}) - {key} == Keys(s) - {key};
      } else {
        RestrictRemove(l, key, Keys(s1));
        assert Keys(s1) - {key} == Keys(s) - {key};
      }
    } else if key in Keys(l) {
      var e := Find(l, key).value;
      RestrictSnoc(l1, e, Keys(s));
      assert Keys(s) - {key} == Keys(s);
    }
  }

  /** Both evict after an insertion: the larger one never loses an entry that
      the smaller one keeps. */
  lemma EvictKeepsIncluded<V>(s: seq<Entry<V>>, l: seq<Entry<V>>, m: nat, n: nat)
    requires Unique(s) && Unique(l) && s == Restrict(l, Keys(s)) && m <= n
    requires |s| <= m + 1 && |l| <= n + 1 && (|l| == n + 1 ==> |s| == m + 1)
    requires |l| <= n && |s| <= m ==> |l| - |s| <= n - m
    ensures Included(Evict(s, m), Evict(l, n), m, n)
  {
    if |s| == m + 1 {
      var s1 := s[1..];
      assert s == [s[0]] + s1;
      FirstIsNew(s);
      RestrictDropFirst(l, Keys(s));
      assert Keys(s1) == Keys(s) * Keys(s1);
      RestrictRestrict(l, Keys(s), Keys(s1));
      RestrictDropFirst(s, Keys(s1));
      RestrictAll(s1, Keys(s1));
      assert Restrict(l, Keys(s1)) == s1;
      if |l| == n + 1 {
        FirstIsNew(l);
        RestrictDropFirst(l, Keys(s1));
        assert l[0].key !in Keys(s1);
      }
    }
  }

  lemma FirstIsNew<V>(es: seq<Entry<V>>)
    requires Unique(es) && es != []
    ensures Unique(es[1..]) && es[0].key !in Keys(es[1..]) && Keys(es) == Keys(es[1..]) + {es[0].key}
  {
    forall i | 0 < i < |es| ensures es[i].key in Keys(es[1..]) { assert es[1..][i - 1] == es[i]; }
  }

  lemma SetKeepsIncluded<V>(s: seq<Entry<V>>, l: seq<Entry<V>>, m: nat, n: nat, op: Op<V>)
    requires Included(s, l, m, n) && op.Set? && m <= n
    ensures Included(Step(s, m, op), Step(l, n, op), m, n)
  {
    var key, e := op.key, EntryOf(op);
    var s1, l1 := Remove(s, key), Remove(l, key);
    RemoveKeys(s, key);
    RemoveKeys(l, key);
    RemoveLength(s, key);
    RemoveLength(l, key);
    SnocUnique(s1, e);
    SnocUnique(l1, e);
    KeysSnoc(s1, e);
    RestrictSnoc(l1, e, Keys(s1) + {key});
    RestrictRemove(l, key, Keys(s));
    RestrictRemove(l, key, Keys(s1) + {key});
    assert (Keys(s1) + {key}) - {key} == Keys(s) - {key};
    if key in Keys(s) { SmallerFinds(s, l, key); }
    EvictKeepsIncluded(s1 + [e], l1 + [e], m, n);
  }

  /** On the same timed history of gets, sets and clears, the cache with the
      larger bound contains the smaller one, entry for entry. */
  lemma {:induction false} LargerIncludesSmaller<V>(ops: seq<Op<V>>, m: nat, n: nat)
    requires m <= n
    ensures Included(After(m, ops), After(n, ops), m, n)
  {
    if ops != [] {
      var before, op := ops[..|ops| - 1], ops[|ops| - 1];
      LargerIncludesSmaller(before, m, n);
      match op
      case Get(key, now) => GetKeepsIncluded(After(m, before), After(n, before), m, n, key, now);
      case Set(_, _, _, _) => SetKeepsIncluded(After(m, before), After(n, before), m, n, op);
      case Clear =>
    }
  }

  function Hits<V>(max: nat, ops: seq<Op<V>>): nat {
    if ops == [] then 0
    else
      var before, op := ops[..|ops| - 1], ops[|ops| - 1];
      Hits(max, before) + if op.Get? && Answer(After(max, before), op.key, op.now).Some? then 1 else 0
  }

  /** So where the smaller cache hits the larger one hits with the same value,
      and over any history a larger bound never costs a hit. */
  lemma {:induction false} LargerNeverMissesMore<V>(ops: seq<Op<V>>, m: nat, n: nat)
    requires m <= n
    ensures Hits(m, ops) <= Hits(n, ops)
    ensures forall key, now :: Answer(After(m, ops), key, now).Some? ==>
              Answer(After(n, ops), key, now) == Answer(After(m, ops), key, now)
  {
    LargerIncludesSmaller(ops, m, n);
    var s, l := After(m, ops), After(n, ops);
    forall key, now | Answer(s, key, now).Some? ensures Answer(l, key, now) == Answer(s, key, now) {
      SmallerFinds(s, l, key);
    }
    if ops != [] { LargerNeverMissesMore(ops[..|ops| - 1], m, n); }
  }
}
