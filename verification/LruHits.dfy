/** When the cache answers, exactly: on histories and their times. */
module LruHits {
  import opened Prelude
  import opened Lru

  /** The keys of the entries that go after `key` does. */
  function Behind<V>(es: seq<Entry<V>>, key: string): set<string> {
    if es == [] || es[|es| - 1].key == key then {}
    else Behind(es[..|es| - 1], key) + {es[|es| - 1].key}
  }

  /** The other keys that were set or hit since `key` last was, but for those a
      get has missed since. */
  function NewerKeys<V>(max: nat, ops: seq<Op<V>>, key: string): set<string> {
    if ops == [] then {}
    else
      var before, op := ops[..|ops| - 1], ops[|ops| - 1];
      Newer(NewerKeys(max, before, key), op, Uses(After(max, before), op), key)
  }

  /** A set uses its key, and so does a get that hits. */
  predicate Uses<V>(es: seq<Entry<V>>, op: Op<V>) {
    op.Set? || (op.Get? && Answer(es, op.key, op.now).Some?)
  }

  function Newer<V>(newer: set<string>, op: Op<V>, used: bool, key: string): set<string> {
    if op.Clear? then {}
    else if op.key == key then (if used then {} else newer)
    else if used then newer + {op.key} else newer - {op.key}
  }

  /** Within the lifetime it was set with, its last instant included. */
  predicate InTime<V>(op: Op<V>, now: real)
    requires op.Set?
  {
    op.ttl.None? || now <= op.now + op.ttl.value
  }

  /** The operation at `i` set the key, nothing has set or cleared it since, no
      get of it came too late, and there were always fewer newer keys than there
      is room for. */
  ghost predicate Holds<V>(max: nat, ops: seq<Op<V>>, key: string, i: nat) {
    && i < |ops| && ops[i].Set? && ops[i].key == key
    && (forall j :: i < j < |ops| ==> LeavesIt(ops[j], key, ops[i]))
    && (forall j :: i < j <= |ops| ==> HasRoom(max, ops[..j], key))
  }

  predicate LeavesIt<V>(op: Op<V>, key: string, made: Op<V>)
    requires made.Set?
  {
    match op
    case Clear => false
    case Set(k, _, _, _) => k != key
    case Get(k, now) => k == key ==> InTime(made, now)
  }

  predicate HasRoom<V>(max: nat, ops: seq<Op<V>>, key: string) {
    |NewerKeys(max, ops, key)| < max
  }

  // ---- the order of the entries ----

  lemma {:induction false} BehindAbsent<V>(es: seq<Entry<V>>, key: string)
    requires key !in Keys(es)
    ensures Behind(es, key) == Keys(es)
  {
    if es != [] {
      var init, last := es[..|es| - 1], es[|es| - 1];
      assert es == init + [last];
      KeysSnoc(init, last);
      BehindAbsent(init, key);
    }
  }

  lemma RemoveSnoc<V>(es: seq<Entry<V>>, e: Entry<V>, k: string)
    ensures Remove(es + [e], k) == if e.key == k then Remove(es, k) else Remove(es, k) + [e]
  {
    assert (es + [e])[..|es|] == es;
  }

  lemma {:induction false} BehindRemove<V>(es: seq<Entry<V>>, key: string, k: string)
    requires Unique(es) && k != key
    ensures Behind(Remove(es, k), key) == Behind(es, key) - {k}
  {
    if es != [] {
      var init, last := es[..|es| - 1], es[|es| - 1];
      assert es == init + [last];
      LastIsNew(init, last);
      BehindRemove(init, key, k);
      BehindLast(init, last, key, k);
    }
  }

  lemma BehindLast<V>(es: seq<Entry<V>>, e: Entry<V>, key: string, k: string)
    requires e.key !in Keys(es) && k != key && Behind(Remove(es, k), key) == Behind(es, key) - {k}
    ensures Behind(Remove(es + [e], k), key) == Behind(es + [e], key) - {k}
  {
    hide Behind, Remove;
    RemoveSnoc(es, e, k);
    BehindSnoc(es, e, key);
    BehindIn(es, key);
    if e.key != k { BehindSnoc(Remove(es, k), e, key); }
  }

  lemma {:induction false} BehindIn<V>(es: seq<Entry<V>>, key: string)
    ensures Behind(es, key) <= Keys(es) - {key}
  {
    if es != [] {
      var init, last := es[..|es| - 1], es[|es| - 1];
      assert es == init + [last];
      KeysSnoc(init, last);
      BehindIn(init, key);
    }
  }

  lemma BehindSnoc<V>(es: seq<Entry<V>>, e: Entry<V>, key: string)
    ensures Behind(es + [e], key) == if e.key == key then {} else Behind(es, key) + {e.key}
  {
    assert (es + [e])[..|es|] == es;
  }

  lemma {:induction false} BehindFewer<V>(es: seq<Entry<V>>, key: string)
    requires Unique(es) && key in Keys(es)
    ensures |Behind(es, key)| < |es|
    ensures |Behind(es, key)| == |es| - 1 <==> es[0].key == key
    ensures es[0].key != key ==> key in Keys(es[1..]) && Behind(es[1..], key) == Behind(es, key)
  {
    var init, last := es[..|es| - 1], es[|es| - 1];
    assert es == init + [last];
    LastIsNew(init, last);
    KeysSnoc(init, last);
    if last.key == key {
      LastHasNoneBehind(init, last);
    } else {
      BehindFewer(init, key);
      BehindIn(init, key);
      assert es[1..] == init[1..] + [last];
      KeysSnoc(init[1..], last);
      BehindSnoc(init, last, key);
      BehindSnoc(init[1..], last, key);
    }
  }

  lemma LastHasNoneBehind<V>(es: seq<Entry<V>>, e: Entry<V>)
    requires e.key !in Keys(es)
    ensures Behind(es + [e], e.key) == {}
    ensures es != [] ==> es[0].key != e.key && (es + [e])[1..] == es[1..] + [e]
    ensures es != [] ==> e.key in Keys(es[1..] + [e]) && Behind(es[1..] + [e], e.key) == {}
  {
    BehindSnoc(es, e, e.key);
    if es != [] {
      BehindSnoc(es[1..], e, e.key);
      KeysSnoc(es[1..], e);
    }
  }

  /** Eviction takes the key out exactly if everything else is newer. */
  lemma EvictBehind<V>(es: seq<Entry<V>>, max: nat, key: string)
    requires Unique(es) && |es| <= max + 1 && key in Keys(es)
    ensures key in Keys(Evict(es, max)) <==> |Behind(es, key)| < max
    ensures key in Keys(Evict(es, max)) ==> Behind(Evict(es, max), key) == Behind(es, key)
  {
    BehindFewer(es, key);
    FirstIsNew(es);
  }

  // ---- the invariant ----

  /** The entry of the key is the one set at `i`, and the entries that go after
      it are those of the newer keys. */
  ghost predicate Placed<V>(max: nat, ops: seq<Op<V>>, key: string, i: nat) {
    var es := After(max, ops);
    && key in Keys(es) && i < |ops| && ops[i].Set? && Find(es, key) == Some(EntryOf(ops[i]))
    && Behind(es, key) == NewerKeys(max, ops, key)
  }

  lemma FindRemoved<V>(es: seq<Entry<V>>, key: string, k: string)
    requires Unique(es) && k != key && key in Keys(es)
    ensures key in Keys(Remove(es, k)) && Find(Remove(es, k), key) == Find(es, key)
  {
    RemoveKeys(es, k);
    OnlyEntry(es, Find(es, key).value, Find(Remove(es, k), key).value);
  }

  lemma FindSnoc<V>(es: seq<Entry<V>>, e: Entry<V>, key: string)
    ensures Find(es + [e], key) == if e.key == key then Some(e) else Find(es, key)
  {
    assert (es + [e])[..|es|] == es;
  }

  lemma FindEvicted<V>(es: seq<Entry<V>>, max: nat, key: string)
    requires Unique(es) && |es| <= max + 1 && key in Keys(Evict(es, max))
    ensures key in Keys(es) && Find(Evict(es, max), key) == Find(es, key)
  {
    var kept := Evict(es, max);
    assert Find(kept, key).value in es;
    OnlyEntry(es, Find(kept, key).value, Find(es, key).value);
  }

  lemma OneMore<V>(max: nat, before: seq<Op<V>>, op: Op<V>, key: string)
    ensures var ops, newer := before + [op], NewerKeys(max, before, key);
            && After(max, ops) == Step(After(max, before), max, op)
            && NewerKeys(max, ops, key) == Newer(newer, op, Uses(After(max, before), op), key)
  {
    assert (before + [op])[..|before|] == before;
  }

  /** A get moves or removes its own entry and leaves the order of the others. */
  lemma GetPlaces<V>(max: nat, before: seq<Op<V>>, op: Op<V>, key: string, i: nat)
    requires op.Get? && Placed(max, before, key, i)
    ensures var ops := before + [op];
            if op.key == key && !InTime(before[i], op.now) then key !in Keys(After(max, ops))
            else Placed(max, ops, key, i) && (op.key == key ==> NewerKeys(max, ops, key) == {})
  {
    hide After, NewerKeys, Remove, Find, Behind;
    var ops, es := before + [op], After(max, before);
    assert ops[i] == before[i];
    OneMore(max, before, op, key);
    AfterKeepsBound(max, before);
    RemoveKeys(es, op.key);
    var e := Find(es, op.key);
    if op.key == key {
      BehindSnoc(Remove(es, key), e.value, key);
      FindSnoc(Remove(es, key), e.value, key);
      KeysSnoc(Remove(es, key), e.value);
    } else {
      FindRemoved(es, key, op.key);
      BehindRemove(es, key, op.key);
      BehindIn(es, key);
      if e.Some? {
        BehindSnoc(Remove(es, op.key), e.value, key);
        FindSnoc(Remove(es, op.key), e.value, key);
        KeysSnoc(Remove(es, op.key), e.value);
      }
    }
  }

  /** A set of another key pushes it out exactly if that makes one too many. */
  lemma SetPlaces<V>(max: nat, before: seq<Op<V>>, op: Op<V>, key: string, i: nat)
    requires op.Set? && op.key != key && Placed(max, before, key, i)
    ensures var ops := before + [op];
            if |NewerKeys(max, ops, key)| < max then Placed(max, ops, key, i) else key !in Keys(After(max, ops))
  {
    hide After, NewerKeys, Remove, Find, Behind, Evict;
    var ops, es := before + [op], After(max, before);
    assert ops[i] == before[i];
    OneMore(max, before, op, key);
    AfterKeepsBound(max, before);
    RemoveKeys(es, op.key);
    RemoveLength(es, op.key);
    FindRemoved(es, key, op.key);
    BehindRemove(es, key, op.key);
    var rest, e := Remove(es, op.key), EntryOf(op);
    SnocUnique(rest, e);
    BehindSnoc(rest, e, key);
    FindSnoc(rest, e, key);
    KeysSnoc(rest, e);
    EvictBehind(rest + [e], max, key);
    if key in Keys(Evict(rest + [e], max)) { FindEvicted(rest + [e], max, key); }
  }

  /** A set of the key itself puts it last, if there is room for anything. */
  lemma OwnSetPlaces<V>(max: nat, before: seq<Op<V>>, op: Op<V>, key: string)
    requires op.Set? && op.key == key
    ensures var ops := before + [op];
            if max > 0 then Placed(max, ops, key, |before|) else key !in Keys(After(max, ops))
    ensures NewerKeys(max, before + [op], key) == {}
  {
    var ops, es := before + [op], After(max, before);
    assert ops[..|ops| - 1] == before;
    AfterKeepsBound(max, before);
    RemoveKeys(es, key);
    RemoveLength(es, key);
    var rest, e := Remove(es, key), EntryOf(op);
    SnocUnique(rest, e);
    BehindSnoc(rest, e, key);
    FindSnoc(rest, e, key);
    KeysSnoc(rest, e);
    EvictBehind(rest + [e], max, key);
    if max > 0 { FindEvicted(rest + [e], max, key); }
  }

  /** What is not there is not there until it is set. */
  lemma AbsentStays<V>(max: nat, before: seq<Op<V>>, op: Op<V>, key: string)
    requires key !in Keys(After(max, before)) && !(op.Set? && op.key == key)
    ensures key !in Keys(After(max, before + [op]))
  {
    var es := After(max, before);
    assert (before + [op])[..|before|] == before;
    if !op.Clear? { RemoveKeys(es, op.key); }
    match op
    case Get(k, now) => if Find(es, k).Some? { KeysSnoc(Remove(es, k), Find(es, k).value); }
    case Set(k, _, _, _) =>
      KeysSnoc(Remove(es, k), EntryOf(op));
      EvictIn(Remove(es, k) + [EntryOf(op)], max);
    case Clear =>
  }

  lemma EvictIn<V>(es: seq<Entry<V>>, max: nat)
    ensures Keys(Evict(es, max)) <= Keys(es)
  {
    var kept := Evict(es, max);
    forall i | 0 <= i < |kept| ensures kept[i].key in Keys(es) {
      assert kept[i] == es[|es| - |kept| + i];
    }
  }

  // ---- a hit ----

  /** The key is in the cache, with the entry set at `i`, exactly if the history
      says that it holds. */
  lemma {:induction false} HeldIff<V>(max: nat, ops: seq<Op<V>>, key: string)
    ensures forall i: nat :: Holds(max, ops, key, i) ==> Placed(max, ops, key, i)
    ensures key in Keys(After(max, ops)) ==> exists i: nat :: Holds(max, ops, key, i)
  {
    if ops != [] {
      var before, op := ops[..|ops| - 1], ops[|ops| - 1];
      assert before + [op] == ops;
      HeldIff(max, before, key);
      forall i: nat | Holds(max, ops, key, i) ensures Placed(max, ops, key, i) { HoldsPlaced(max, before, op, key, i); }
      if key in Keys(After(max, ops)) { var i := HeldHolds(max, before, op, key); }
    }
  }

  lemma HoldsPlaced<V>(max: nat, before: seq<Op<V>>, op: Op<V>, key: string, i: nat)
    requires Holds(max, before + [op], key, i)
    requires Holds(max, before, key, i) ==> Placed(max, before, key, i)
    ensures Placed(max, before + [op], key, i)
  {
    hide NewerKeys, After, Placed;
    var ops := before + [op];
    assert ops[..|ops|] == ops;
    if i == |before| {
      OwnSetPlaces(max, before, op, key);
    } else {
      assert ops[|before|] == op;
      HoldsBefore(max, before, op, key, i);
      match op
      case Get(_, _) => GetPlaces(max, before, op, key, i);
      case Set(_, _, _, _) => SetPlaces(max, before, op, key, i);
      case Clear => assert false;
    }
  }

  lemma HoldsBefore<V>(max: nat, before: seq<Op<V>>, op: Op<V>, key: string, i: nat)
    requires i < |before|
    ensures Holds(max, before + [op], key, i) <==>
              Holds(max, before, key, i) && LeavesIt(op, key, before[i]) && HasRoom(max, before + [op], key)
  {
    hide HasRoom, LeavesIt;
    var ops, n := before + [op], |before|;
    assert ops[..|ops|] == ops && ops[n] == op && ops[i] == before[i];
    forall j | 0 <= j <= n ensures ops[..j] == before[..j] {
    }
    if Holds(max, ops, key, i) {
      assert LeavesIt(ops[n], key, ops[i]);
      forall j | i < j < n ensures LeavesIt(before[j], key, before[i]) {
        assert LeavesIt(ops[j], key, ops[i]);
      }
      forall j | i < j <= n ensures HasRoom(max, before[..j], key) {
        assert HasRoom(max, ops[..j], key);
      }
    }
    if Holds(max, before, key, i) && LeavesIt(op, key, before[i]) && HasRoom(max, ops, key) {
      forall j | i < j < |ops| ensures LeavesIt(ops[j], key, ops[i]) {
        if j < n { assert LeavesIt(before[j], key, before[i]); }
      }
      forall j | i < j <= |ops| ensures HasRoom(max, ops[..j], key) {
        if j <= n { assert HasRoom(max, before[..j], key); }
      }
    }
  }

  lemma HeldHolds<V>(max: nat, before: seq<Op<V>>, op: Op<V>, key: string) returns (i: nat)
    requires key in Keys(After(max, before + [op]))
    requires key in Keys(After(max, before)) ==> exists i: nat :: Holds(max, before, key, i)
    requires forall i: nat :: Holds(max, before, key, i) ==> Placed(max, before, key, i)
    ensures Holds(max, before + [op], key, i)
  {
    hide NewerKeys, After, Placed;
    var ops := before + [op];
    assert ops[..|ops| - 1] == before;
    if op.Set? && op.key == key {
      i := |before|;
      OwnSetPlaces(max, before, op, key);
      assert ops[..|ops|] == ops;
    } else {
      if key !in Keys(After(max, before)) { AbsentStays(max, before, op, key); }
      i :| Holds(max, before, key, i);
      if op.Clear? { ClearedIsEmpty(max, before); }
      StillHolds(max, before, op, key, i);
    }
  }

  lemma ClearedIsEmpty<V>(max: nat, before: seq<Op<V>>)
    ensures After(max, before + [Clear]) == []
  {
    assert (before + [Clear])[..|before|] == before;
  }

  lemma StillHolds<V>(max: nat, before: seq<Op<V>>, op: Op<V>, key: string, i: nat)
    requires Holds(max, before, key, i) && Placed(max, before, key, i) && key in Keys(After(max, before + [op]))
    requires !op.Clear? && (op.Set? ==> op.key != key)
    ensures Holds(max, before + [op], key, i)
  {
    var ops := before + [op];
    HoldsBefore(max, before, op, key, i);
    AfterKeepsBound(max, ops);
    if op.Get? { GetPlaces(max, before, op, key, i); } else { SetPlaces(max, before, op, key, i); }
    if Placed(max, ops, key, i) { BehindFewer(After(max, ops), key); }
  }

  /** A get answers a value if and only if the key was set to it last, the get
      and every get of the key in between came within its lifetime, the cache was
      not cleared since, and there were always fewer newer keys than entries. */
  lemma HitIff<V>(max: nat, ops: seq<Op<V>>, key: string, now: real, value: V)
    ensures Answer(After(max, ops), key, now) == Some(value) <==>
            exists i: nat :: Holds(max, ops, key, i) && ops[i].value == value && InTime(ops[i], now)
  {
    hide Holds, After;
    HeldIff(max, ops, key);
    if Answer(After(max, ops), key, now) == Some(value) {
      var i: nat :| Holds(max, ops, key, i);
      assert Placed(max, ops, key, i);
    }
    forall i: nat | Holds(max, ops, key, i) && ops[i].value == value && InTime(ops[i], now)
      ensures Answer(After(max, ops), key, now) == Some(value)
    {
      assert Placed(max, ops, key, i);
    }
  }

  // ---- a plain bound ----

  /** The other keys that any operation was about. */
  function OtherKeys<V>(ops: seq<Op<V>>, key: string): set<string> {
    if ops == [] then {}
    else
      var op := ops[|ops| - 1];
      OtherKeys(ops[..|ops| - 1], key) + if op.Clear? || op.key == key then {} else {op.key}
  }

  lemma {:induction false} NewerAreOthers<V>(max: nat, ops: seq<Op<V>>, key: string, i: nat)
    requires i < |ops| && ops[i].Set? && ops[i].key == key
    ensures NewerKeys(max, ops, key) <= OtherKeys(ops[i + 1..], key)
    decreases |ops|
  {
    hide After;
    var before := ops[..|ops| - 1];
    if i < |ops| - 1 {
      NewerAreOthers(max, before, key, i);
      assert ops[i + 1..][..|ops| - i - 2] == before[i + 1..];
    }
  }

  lemma {:induction false} OthersGrow<V>(ops: seq<Op<V>>, key: string, j: nat)
    requires j <= |ops|
    ensures OtherKeys(ops[..j], key) <= OtherKeys(ops, key)
  {
    if j < |ops| {
      OthersGrow(ops[..|ops| - 1], key, j);
      assert ops[..|ops| - 1][..j] == ops[..j];
    } else {
      assert ops[..j] == ops;
    }
  }

  lemma {:induction false} SubsetIsFewer<T>(a: set<T>, b: set<T>)
    requires a <= b
    ensures |a| <= |b|
  {
    if a != {} {
      var x :| x in a;
      SubsetIsFewer(a - {x}, b - {x});
    }
  }

  /** So a value is certainly there, within its lifetime, as long as fewer other
      keys than there is room for were touched since it was set. */
  lemma FewOthersHit<V>(max: nat, ops: seq<Op<V>>, key: string, now: real, i: nat)
    requires i < |ops| && ops[i].Set? && ops[i].key == key && InTime(ops[i], now)
    requires forall j :: i < j < |ops| ==> LeavesIt(ops[j], key, ops[i])
    requires |OtherKeys(ops[i + 1..], key)| < max
    ensures Answer(After(max, ops), key, now) == Some(ops[i].value)
  {
    forall j | i < j <= |ops| ensures HasRoom(max, ops[..j], key) {
      NewerAreOthers(max, ops[..j], key, i);
      OthersGrow(ops[i + 1..], key, j - i - 1);
      assert ops[..j][i + 1..] == ops[i + 1..][..j - i - 1];
      SubsetIsFewer(NewerKeys(max, ops[..j], key), OtherKeys(ops[i + 1..], key));
    }
    assert Holds(max, ops, key, i);
    HitIff(max, ops, key, now, ops[i].value);
  }
}
