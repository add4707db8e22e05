/** Many runs, one stream (`server/events.py`). Producers put messages into one
    queue and each ends with a sentinel; the drainer counts sentinels. A move is
    one stretch of code between two awaits. */
module Events {
  import opened Prelude

  datatype Msg =
    | Hook(side: nat, n: nat)      // a span, a cost or a token
    | RunEnd(side: nat)
    | RunError(side: nat)
    | Sentinel(side: nat)

  datatype Out = Sent(msg: Msg) | DoneEvent

  datatype Stage =
    | Reading      // the loop that counts sentinels
    | Draining     // the loop that empties the queue
    | Closed       // `done` has been sent
    | Gone         // the client hung up

  /** `put` is all that was ever put, `sent` all that was ever sent. */
  datatype State = State(
    running: set<nat>,
    cancelled: set<nat>,
    queue: seq<Msg>,
    remaining: nat,
    stage: Stage,
    put: seq<Msg>,
    sent: seq<Out>)

  datatype Move =
    | Fire(side: nat, n: nat)      // a hook, from inside a run or from work it left behind
    | Finish(side: nat)
    | Fail(side: nat)
    | Cancel(side: nat)            // only the `finally` of the wrapper is left
    | Next                         // the drainer goes on
    | HangUp

  function Sides(n: nat): (r: set<nat>)
    ensures forall i: nat :: i in r <==> i < n
    ensures |r| == n
  {
    if n == 0 then {} else Sides(n - 1) + {n - 1}
  }

  function Start(n: nat): State {
    State(Sides(n), {}, [], n, if n == 0 then Draining else Reading, [], [])
  }

  predicate Can(n: nat, s: State, m: Move) {
    match m
    case Fire(side, _) => side < n
    case Finish(side) => side in s.running
    case Fail(side) => side in s.running
    case Cancel(side) => side in s.running
    case Next => (s.stage == Reading && s.queue != []) || s.stage == Draining
    case HangUp => s.stage in {Reading, Draining}
  }

  function Puts(s: State, msgs: seq<Msg>): State {
    s.(queue := s.queue + msgs, put := s.put + msgs)
  }

  /** One message out of the queue; the last sentinel ends the counting. */
  function Turn(s: State): State {
    if s.queue == [] then
      if s.stage == Draining then s.(stage := Closed, sent := s.sent + [DoneEvent]) else s
    else
      var m, rest := s.queue[0], s.queue[1..];
      if !m.Sentinel? then s.(queue := rest, sent := s.sent + [Sent(m)])
      else if s.stage == Reading && s.remaining > 0 then
        s.(queue := rest, remaining := s.remaining - 1,
           stage := if s.remaining == 1 then Draining else Reading)
      else s.(queue := rest)
  }

  function Apply(n: nat, s: State, m: Move): State
    requires Can(n, s, m)
  {
    match m
    case Fire(side, k) => Puts(s, [Hook(side, k)])
    case Finish(side) => Puts(s, [RunEnd(side), Sentinel(side)]).(running := s.running - {side})
    case Fail(side) => Puts(s, [RunError(side), Sentinel(side)]).(running := s.running - {side})
    case Cancel(side) =>
      Puts(s, [Sentinel(side)]).(running := s.running - {side}, cancelled := s.cancelled + {side})
    case Next => Turn(s)
    case HangUp => s.(stage := Gone)
  }

  predicate Run(n: nat, ms: seq<Move>)
    decreases ms, 0
  {
    ms == [] || (Run(n, ms[..|ms| - 1]) && Can(n, After(n, ms[..|ms| - 1]), ms[|ms| - 1]))
  }

  function After(n: nat, ms: seq<Move>): State
    requires Run(n, ms)
    decreases ms, 1
  {
    if ms == [] then Start(n) else Apply(n, After(n, ms[..|ms| - 1]), ms[|ms| - 1])
  }

  // ---- nothing is lost, nothing is reordered ----

  function Sentinels(ms: seq<Msg>): nat {
    if ms == [] then 0 else Sentinels(ms[..|ms| - 1]) + if ms[|ms| - 1].Sentinel? then 1 else 0
  }

  /** The messages that are for the client, in order. */
  function Real(ms: seq<Msg>): seq<Out> {
    if ms == [] then []
    else Real(ms[..|ms| - 1]) + if ms[|ms| - 1].Sentinel? then [] else [Sent(ms[|ms| - 1])]
  }

  lemma {:induction false} Concat(a: seq<Msg>, b: seq<Msg>)
    ensures Real(a + b) == Real(a) + Real(b)
    ensures Sentinels(a + b) == Sentinels(a) + Sentinels(b)
  {
    if b == [] {
      assert a + b == a;
    } else {
      Concat(a, b[..|b| - 1]);
      assert (a + b)[..|a + b| - 1] == a + b[..|b| - 1];
    }
  }

  lemma One(m: Msg)
    ensures Real([m]) == (if m.Sentinel? then [] else [Sent(m)])
    ensures Sentinels([m]) == (if m.Sentinel? then 1 else 0)
  {
    assert [m][..0] == [];
  }

  /** What the drainer has taken out of the queue so far. */
  function Taken(s: State): seq<Msg>
    requires |s.queue| <= |s.put|
  {
    s.put[..|s.put| - |s.queue|]
  }

  /** The books of the merge. */
  ghost predicate Kept(n: nat, s: State) {
    && |s.queue| <= |s.put| && s.put == Taken(s) + s.queue
    && s.sent == Real(Taken(s)) + (if s.stage == Closed then [DoneEvent] else [])
    && Sentinels(s.put) + |s.running| == n
    && (s.stage == Reading ==> s.remaining > 0 && s.remaining + Sentinels(Taken(s)) == n)
    && (s.stage in {Draining, Closed} ==> s.remaining == 0 && Sentinels(Taken(s)) == n)
  }

  lemma PutsKeep(n: nat, s: State, msgs: seq<Msg>)
    requires Kept(n, s)
    ensures var s' := Puts(s, msgs);
            && Taken(s') == Taken(s)
            && s'.put == Taken(s') + s'.queue
            && Sentinels(s'.put) == Sentinels(s.put) + Sentinels(msgs)
  {
    hide Real, Sentinels;
    Concat(s.put, msgs);
    var s' := Puts(s, msgs);
    assert s'.put == Taken(s) + (s.queue + msgs);
  }

  lemma TurnKeeps(n: nat, s: State)
    requires Kept(n, s) && ((s.stage == Reading && s.queue != []) || s.stage == Draining)
    ensures Kept(n, Turn(s))
  {
    hide Real, Sentinels;
    if s.queue != [] {
      var m, s' := s.queue[0], Turn(s);
      assert Taken(s') == Taken(s) + [m];
      assert s'.put == Taken(s') + s'.queue;
      Concat(Taken(s), [m]);
      One(m);
      Concat(Taken(s'), s'.queue);
      assert Real(Taken(s)) + [] == Real(Taken(s));
    } else {
      assert Taken(Turn(s)) == Taken(s);
      assert Real(Taken(s)) + [] == Real(Taken(s));
    }
  }

  lemma MoveKeeps(n: nat, s: State, m: Move)
    requires Kept(n, s) && Can(n, s, m)
    ensures Kept(n, Apply(n, s, m))
  {
    hide Real, Sentinels;
    match m
    case Fire(side, k) =>
      PutsKeep(n, s, [Hook(side, k)]);
      One(Hook(side, k));
    case Finish(side) => EndKeeps(n, s, RunEnd(side), side);
    case Fail(side) => EndKeeps(n, s, RunError(side), side);
    case Cancel(side) =>
      PutsKeep(n, s, [Sentinel(side)]);
      One(Sentinel(side));
    case Next => TurnKeeps(n, s);
    case HangUp =>
  }

  lemma EndKeeps(n: nat, s: State, end: Msg, side: nat)
    requires Kept(n, s) && side in s.running && !end.Sentinel?
    ensures Kept(n, Puts(s, [end, Sentinel(side)]).(running := s.running - {side}))
  {
    hide Real;
    PutsKeep(n, s, [end, Sentinel(side)]);
    assert [end, Sentinel(side)] == [end] + [Sentinel(side)];
    Concat([end], [Sentinel(side)]);
    One(end);
    One(Sentinel(side));
  }

  lemma {:induction false} AlwaysKept(n: nat, ms: seq<Move>)
    requires Run(n, ms)
    ensures Kept(n, After(n, ms))
  {
    hide Kept, Apply, Can;
    if ms == [] {
      StartKept(n);
    } else {
      AlwaysKept(n, ms[..|ms| - 1]);
      MoveKeeps(n, After(n, ms[..|ms| - 1]), ms[|ms| - 1]);
    }
  }

  lemma StartKept(n: nat)
    ensures Kept(n, Start(n))
  {
  }

  /** At every point of every run what was sent is exactly what was put for the
      client and taken out again, in the order it was put; `remaining` counts
      the sentinels not taken out yet; and `done` is sent once, as the last. */
  lemma MergeIsLossless(n: nat, ms: seq<Move>)
    requires Run(n, ms)
    ensures var s := After(n, ms);
            && |s.queue| <= |s.put|
            && Real(s.put) == Real(Taken(s)) + Real(s.queue)
            && s.sent == Real(Taken(s)) + (if s.stage == Closed then [DoneEvent] else [])
            && (s.stage == Reading ==> s.remaining == |s.running| + Sentinels(s.queue))
            && (s.stage in {Draining, Closed} ==> s.running == {} && Sentinels(s.queue) == 0)
            && DoneEvent !in Real(Taken(s))
  {
    AlwaysKept(n, ms);
    var s := After(n, ms);
    Concat(Taken(s), s.queue);
    RealIsNotDone(Taken(s));
  }

  lemma {:induction false} RealIsNotDone(ms: seq<Msg>)
    ensures DoneEvent !in Real(ms)
  {
    if ms != [] { RealIsNotDone(ms[..|ms| - 1]); }
  }

  /** The drainer never waits for nothing: while it reads, a message is there or
      a run is still going; and what it drains it finishes. */
  lemma NeverStuck(n: nat, ms: seq<Move>)
    requires Run(n, ms) && After(n, ms).stage in {Reading, Draining}
    ensures After(n, ms).running == {} ==> Can(n, After(n, ms), Next)
  {
    AlwaysKept(n, ms);
    var s := After(n, ms);
    Concat(Taken(s), s.queue);
  }

  // ---- hooks that fire after their run ----

  /** Hooks fire only while their run does. */
  predicate Inside(n: nat, ms: seq<Move>)
    requires Run(n, ms)
  {
    ms == [] ||
    (Inside(n, ms[..|ms| - 1])
     && (ms[|ms| - 1].Fire? ==> ms[|ms| - 1].side in After(n, ms[..|ms| - 1]).running))
  }

  /** Hooks fired after the stream was closed; no run is left to end by then. */
  function Late(n: nat, ms: seq<Move>): seq<Msg>
    requires Run(n, ms)
  {
    if ms == [] then []
    else
      var before, m := ms[..|ms| - 1], ms[|ms| - 1];
      Late(n, before)
        + if m.Fire? && After(n, before).stage == Closed then [Hook(m.side, m.n)] else []
  }

  /** The queue is empty when the stream closes; afterwards only hooks get in. */
  lemma QueueOnceClosed(n: nat, s: State, m: Move)
    requires Kept(n, s) && Can(n, s, m)
    ensures var s' := Apply(n, s, m);
            && (s.stage == Closed ==>
                  && s'.stage == Closed
                  && s'.queue == s.queue + if m.Fire? then [Hook(m.side, m.n)] else [])
            && (s.stage != Closed && s'.stage == Closed ==> s'.queue == [])
  {
    hide Real;
    Concat(Taken(s), s.queue);
    assert s.queue + [] == s.queue;
  }

  /** Once the stream is closed exactly those hooks are lost that fired after it
      closed, as work does that a failed run left behind. */
  lemma {:induction false} LostExactlyLate(n: nat, ms: seq<Move>)
    requires Run(n, ms)
    ensures var s := After(n, ms);
            if s.stage == Closed then s.queue == Late(n, ms) else Late(n, ms) == []
  {
    hide Kept, Apply, Can;
    if ms != [] {
      var before, m := ms[..|ms| - 1], ms[|ms| - 1];
      LostExactlyLate(n, before);
      AlwaysKept(n, before);
      QueueOnceClosed(n, After(n, before), m);
    }
  }

  /** So with hooks that keep to their runs a closed stream sent everything. */
  lemma {:induction false} InsideLosesNothing(n: nat, ms: seq<Move>)
    requires Run(n, ms) && Inside(n, ms) && After(n, ms).stage == Closed
    ensures After(n, ms).sent == Real(After(n, ms).put) + [DoneEvent]
  {
    MergeIsLossless(n, ms);
    LostExactlyLate(n, ms);
    NoneLate(n, ms);
    var s := After(n, ms);
    assert Real(Taken(s)) + [] == Real(Taken(s));
  }

  lemma {:induction false} NoneLate(n: nat, ms: seq<Move>)
    requires Run(n, ms) && Inside(n, ms)
    ensures Late(n, ms) == []
  {
    if ms != [] {
      NoneLate(n, ms[..|ms| - 1]);
      MergeIsLossless(n, ms[..|ms| - 1]);
    }
  }

  // ---- one end for each side ----

  function Ends(ms: seq<Msg>, side: nat): nat {
    if ms == [] then 0
    else Ends(ms[..|ms| - 1], side)
           + if ms[|ms| - 1] == RunEnd(side) || ms[|ms| - 1] == RunError(side) then 1 else 0
  }

  function SentEnds(os: seq<Out>, side: nat): nat {
    if os == [] then 0
    else SentEnds(os[..|os| - 1], side)
           + if os[|os| - 1] == Sent(RunEnd(side)) || os[|os| - 1] == Sent(RunError(side)) then 1 else 0
  }

  lemma EndsSnoc(ms: seq<Msg>, m: Msg, side: nat)
    ensures Ends(ms + [m], side) == Ends(ms, side) + if m == RunEnd(side) || m == RunError(side) then 1 else 0
  {
    assert (ms + [m])[..|ms|] == ms;
  }

  /** A side has one end on the books, unless it runs still or was cancelled. */
  ghost predicate OneEnd(s: State, side: nat) {
    && s.running !! s.cancelled
    && Ends(s.put, side) == if side in s.running + s.cancelled then 0 else 1
  }

  lemma MoveKeepsOneEnd(n: nat, s: State, m: Move, side: nat)
    requires OneEnd(s, side) && Can(n, s, m)
    ensures OneEnd(Apply(n, s, m), side)
  {
    hide Ends, Turn;
    var p := s.put;
    match m
    case Fire(i, k) => EndsSnoc(p, Hook(i, k), side);
    case Finish(i) => TwoPuts(p, RunEnd(i), Sentinel(i), side);
    case Fail(i) => TwoPuts(p, RunError(i), Sentinel(i), side);
    case Cancel(i) => EndsSnoc(p, Sentinel(i), side);
    case Next => TurnPutsNothing(s);
    case HangUp =>
  }

  lemma TurnPutsNothing(s: State)
    ensures Turn(s).put == s.put && Turn(s).running == s.running && Turn(s).cancelled == s.cancelled
  {
  }

  lemma TwoPuts(p: seq<Msg>, a: Msg, b: Msg, side: nat)
    requires b.Sentinel?
    ensures Ends(p + [a, b], side) == Ends(p, side) + if a == RunEnd(side) || a == RunError(side) then 1 else 0
  {
    EndsSnoc(p, a, side);
    EndsSnoc(p + [a], b, side);
    assert p + [a, b] == (p + [a]) + [b];
  }

  lemma {:induction false} OneEndPut(n: nat, ms: seq<Move>, side: nat)
    requires Run(n, ms) && side < n
    ensures OneEnd(After(n, ms), side)
  {
    hide OneEnd, Apply, Can;
    if ms == [] {
      OneEndAtStart(n, side);
    } else {
      OneEndPut(n, ms[..|ms| - 1], side);
      MoveKeepsOneEnd(n, After(n, ms[..|ms| - 1]), ms[|ms| - 1], side);
    }
  }

  lemma OneEndAtStart(n: nat, side: nat)
    requires side < n
    ensures OneEnd(Start(n), side)
  {
  }

  lemma {:induction false} RealKeepsEnds(ms: seq<Msg>, side: nat)
    ensures SentEnds(Real(ms), side) == Ends(ms, side)
  {
    if ms != [] {
      var init, m := ms[..|ms| - 1], ms[|ms| - 1];
      RealKeepsEnds(init, side);
      if m.Sentinel? {
        assert Real(init) + [] == Real(init);
      } else {
        assert (Real(init) + [Sent(m)])[..|Real(init)|] == Real(init);
      }
    }
  }

  /** A closed stream has told the end of every side exactly once, or not at all
      if that side was cancelled, late hooks or not. */
  lemma OneEndSent(n: nat, ms: seq<Move>, side: nat)
    requires Run(n, ms) && side < n && After(n, ms).stage == Closed
    ensures SentEnds(After(n, ms).sent, side) == if side in After(n, ms).cancelled then 0 else 1
  {
    hide Ends, SentEnds, Real, Late, Apply, Can, Sentinels;
    var s := After(n, ms);
    AlwaysKept(n, ms);
    OneEndPut(n, ms, side);
    LostExactlyLate(n, ms);
    LateHasNoEnds(n, ms, side);
    RealKeepsEnds(Taken(s), side);
    EndsConcat(Taken(s), s.queue, side);
    DoneIsNoEnd(Real(Taken(s)), side);
    MergeIsLossless(n, ms);
  }

  lemma DoneIsNoEnd(os: seq<Out>, side: nat)
    ensures SentEnds(os + [DoneEvent], side) == SentEnds(os, side)
  {
    assert (os + [DoneEvent])[..|os|] == os;
  }

  lemma {:induction false} EndsConcat(a: seq<Msg>, b: seq<Msg>, side: nat)
    ensures Ends(a + b, side) == Ends(a, side) + Ends(b, side)
  {
    if b == [] {
      assert a + b == a;
    } else {
      EndsConcat(a, b[..|b| - 1], side);
      assert a + b == (a + b[..|b| - 1]) + [b[|b| - 1]];
      EndsSnoc(a + b[..|b| - 1], b[|b| - 1], side);
    }
  }

  lemma {:induction false} LateHasNoEnds(n: nat, ms: seq<Move>, side: nat)
    requires Run(n, ms)
    ensures Ends(Late(n, ms), side) == 0
  {
    if ms != [] {
      var before, m := ms[..|ms| - 1], ms[|ms| - 1];
      LateHasNoEnds(n, before, side);
      assert Late(n, before) + [] == Late(n, before);
      if m.Fire? { EndsSnoc(Late(n, before), Hook(m.side, m.n), side); }
    }
  }

  // ---- what each side is told ----

  lemma InRealIff(ms: seq<Msg>, m: Msg)
    requires !m.Sentinel?
    ensures Sent(m) in Real(ms) <==> m in ms
  {
    if ms != [] {
      var init, last := ms[..|ms| - 1], ms[|ms| - 1];
      InRealIff(init, m);
      assert ms == init + [last];
    }
  }

  /** What was put of a side's end, and what it did. */
  ghost predicate Told(s: State, ms: seq<Move>, side: nat) {
    && (RunEnd(side) in s.put <==> Finish(side) in ms)
    && (RunError(side) in s.put <==> Fail(side) in ms)
    && (side in s.cancelled <==> Cancel(side) in ms)
  }

  lemma {:induction false} AlwaysTold(n: nat, ms: seq<Move>, side: nat)
    requires Run(n, ms)
    ensures Told(After(n, ms), ms, side)
  {
    if ms != [] {
      var before, m := ms[..|ms| - 1], ms[|ms| - 1];
      AlwaysTold(n, before, side);
      assert ms == before + [m];
      if m.Next? { TurnPutsNothing(After(n, before)); }
    }
  }

  /** A closed stream has told of every side that finished that it ended, of every
      side that failed that it failed, and of no other either. */
  lemma EndsAreTold(n: nat, ms: seq<Move>, side: nat)
    requires Run(n, ms) && After(n, ms).stage == Closed
    ensures var s := After(n, ms);
            && (Sent(RunEnd(side)) in s.sent <==> Finish(side) in ms)
            && (Sent(RunError(side)) in s.sent <==> Fail(side) in ms)
            && (side in s.cancelled <==> Cancel(side) in ms)
  {
    hide Real, Late;
    var s := After(n, ms);
    AlwaysKept(n, ms);
    AlwaysTold(n, ms, side);
    LostExactlyLate(n, ms);
    LateAreHooks(n, ms);
    InRealIff(Taken(s), RunEnd(side));
    InRealIff(Taken(s), RunError(side));
    assert s.put == Taken(s) + s.queue;
  }

  lemma {:induction false} LateAreHooks(n: nat, ms: seq<Move>)
    requires Run(n, ms)
    ensures forall m :: m in Late(n, ms) ==> m.Hook?
  {
    if ms != [] { LateAreHooks(n, ms[..|ms| - 1]); }
  }

  // ---- the object ----

  class RunStream {
    var running: set<nat>
    var cancelled: set<nat>
    var queue: seq<Msg>
    var remaining: nat
    var stage: Stage
    ghost var put: seq<Msg>
    ghost var sent: seq<Out>

    ghost function View(): State
      reads this
    {
      State(running, cancelled, queue, remaining, stage, put, sent)
    }

    constructor (n: nat)
      ensures View() == Start(n)
    {
      running, cancelled, queue, remaining := Sides(n), {}, [], n;
      stage := if n == 0 then Draining else Reading;
      put, sent := [], [];
    }

    method PutNowait(msg: Msg)
      modifies this`queue, this`put
      ensures View() == Puts(old(View()), [msg])
    {
      queue := queue + [msg];
      put := put + [msg];
    }

    /** The end of the wrapped task: what it reports, then always the sentinel. */
    method EndRun(n: nat, side: nat, outcome: Option<Msg>)
      requires side in running
      requires outcome.Some? ==> outcome.value in {RunEnd(side), RunError(side)}
      modifies this
      ensures View() == Apply(n, old(View()),
                if outcome.None? then Cancel(side)
                else if outcome.value.RunEnd? then Finish(side) else Fail(side))
    {
      if outcome.Some? {
        PutNowait(outcome.value);
      } else {
        cancelled := cancelled + {side};
      }
      PutNowait(Sentinel(side));
      running := running - {side};
    }

    /** The two loops of `sse`, one message a turn; what it yields, if anything. */
    method Step(n: nat) returns (out: Option<Out>)
      requires Can(n, View(), Next)
      modifies this
      ensures View() == Apply(n, old(View()), Next)
      ensures View().sent == old(View().sent) + if out.Some? then [out.value] else []
    {
      if queue == [] {
        stage := Closed;
        sent := sent + [DoneEvent];
        return Some(DoneEvent);
      }
      var m := queue[0];
      queue := queue[1..];
      if m.Sentinel? {
        if stage == Reading && remaining > 0 {
          remaining := remaining - 1;
          stage := if remaining == 0 then Draining else Reading;
        }
        return None;
      }
      sent := sent + [Sent(m)];
      return Some(Sent(m));
    }
  }
}
