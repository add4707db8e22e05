/** Replaying a finished match up to an instant (`topics/kalshi/eval/_replay.py`). */
module Replay {
  import opened Prelude
  import opened Sorting
  import opened History
  import KalshiClient

  const SCORING_KINDS: set<string> := {
    "goal", "penalty---scored", "own-goal", "penalty-goal", "goal-penalty"}

  const DAY := 86400

  datatype MatchEvent = MatchEvent(seconds: real, kind: string, team: string, text: string)
  {
    predicate Scored() {
      kind in SCORING_KINDS
    }
  }

  datatype Timeline = Timeline(
    gameId: string,
    league: string,
    home: string,
    away: string,
    kickoff: int,
    events: seq<MatchEvent>)
  {
    function Elapsed(at: int): real {
      (at - kickoff) as real
    }
  }

  /** The match minute; before kickoff it is 0. */
  function Minute(elapsed: real): nat {
    var m := (elapsed / 60.0).Floor;
    if m >= 0 then m else 0
  }

  /** Goals by the clock `elapsed`, for the team named `home` or for the others. */
  function Goals(events: seq<MatchEvent>, elapsed: real, home: string, forHome: bool): nat {
    if events == [] then 0
    else
      var e := events[|events| - 1];
      Goals(events[..|events| - 1], elapsed, home, forHome)
        + if e.Scored() && e.seconds <= elapsed && (e.team == home) == forHome then 1 else 0
  }

  function HomeGoals(t: Timeline, at: int): nat {
    Goals(t.events, t.Elapsed(at), t.home, true)
  }

  function AwayGoals(t: Timeline, at: int): nat {
    Goals(t.events, t.Elapsed(at), t.home, false)
  }

  method ScoreAt(t: Timeline, at: int) returns (home: nat, away: nat, minute: nat)
    ensures home == HomeGoals(t, at) && away == AwayGoals(t, at)
    ensures minute == Minute(t.Elapsed(at))
  {
    var elapsed := t.Elapsed(at);
    minute := Minute(elapsed);
    home, away := 0, 0;
    var i := 0;
    while i < |t.events|
      invariant 0 <= i <= |t.events|
      invariant home == Goals(t.events[..i], elapsed, t.home, true)
      invariant away == Goals(t.events[..i], elapsed, t.home, false)
    {
      var event := t.events[i];
      assert t.events[..i + 1][..i] == t.events[..i];
      i := i + 1;
      if !event.Scored() || event.seconds > elapsed {
        continue;
      }
      if event.team == t.home {
        home := home + 1;
      } else {
        away := away + 1;
      }
    }
    assert t.events[..i] == t.events;
  }

  // ---- the score over time ----

  /** A score never goes back. */
  lemma {:induction false} GoalsGrow(events: seq<MatchEvent>, early: real, late: real, home: string, forHome: bool)
    requires early <= late
    ensures Goals(events, early, home, forHome) <= Goals(events, late, home, forHome)
  {
    if events != [] { GoalsGrow(events[..|events| - 1], early, late, home, forHome); }
  }

  /** Once the last goal is in, the score is what it will be at any later clock. */
  lemma {:induction false} GoalsSettle(events: seq<MatchEvent>, early: real, late: real, home: string, forHome: bool)
    requires early <= late
    requires forall i :: 0 <= i < |events| && events[i].Scored() && events[i].seconds <= late
               ==> events[i].seconds <= early
    ensures Goals(events, early, home, forHome) == Goals(events, late, home, forHome)
  {
    if events != [] { GoalsSettle(events[..|events| - 1], early, late, home, forHome); }
  }

  /** `final_score` is the score a day after kickoff. At no earlier instant is a
      side above it, and it is reached with the last goal of that day. */
  lemma ScoreReachesFinal(t: Timeline, at: int)
    requires at <= t.kickoff + DAY
    ensures var end := t.kickoff + DAY;
            && HomeGoals(t, at) <= HomeGoals(t, end)
            && AwayGoals(t, at) <= AwayGoals(t, end)
            && ((forall i :: 0 <= i < |t.events| && t.events[i].Scored() && t.events[i].seconds <= DAY as real
                   ==> t.events[i].seconds <= t.Elapsed(at))
                ==> HomeGoals(t, at) == HomeGoals(t, end) && AwayGoals(t, at) == AwayGoals(t, end))
  {
    var early, late := t.Elapsed(at), DAY as real;
    GoalsGrow(t.events, early, late, t.home, true);
    GoalsGrow(t.events, early, late, t.home, false);
    if forall i :: 0 <= i < |t.events| && t.events[i].Scored() && t.events[i].seconds <= late
         ==> t.events[i].seconds <= early
    {
      GoalsSettle(t.events, early, late, t.home, true);
      GoalsSettle(t.events, early, late, t.home, false);
    }
  }

  /** Every goal of the day is on one side's final score: none is lost. */
  lemma {:induction false} GoalsPartition(events: seq<MatchEvent>, elapsed: real, home: string)
    ensures Goals(events, elapsed, home, true) + Goals(events, elapsed, home, false)
            == |Where(events, ScoredBy(elapsed))|
  {
    if events != [] { GoalsPartition(events[..|events| - 1], elapsed, home); }
  }

  function ScoredBy(elapsed: real): MatchEvent -> bool {
    (e: MatchEvent) => e.Scored() && e.seconds <= elapsed
  }

  /** What one event, wherever it stands, adds to a side's score. */
  lemma {:induction false} GoalsWithout(events: seq<MatchEvent>, i: nat, elapsed: real, home: string, forHome: bool)
    requires i < |events|
    ensures var e := events[i];
            Goals(events, elapsed, home, forHome) == Goals(Without(events, i), elapsed, home, forHome)
              + if e.Scored() && e.seconds <= elapsed && (e.team == home) == forHome then 1 else 0
  {
    hide MatchEvent.Scored, Goals;
    var n := |events| - 1;
    var init, last := events[..n], events[n];
    assert events == init + [last];
    GoalsSnoc(init, last, elapsed, home, forHome);
    if i == n {
      assert Without(events, i) == init;
    } else {
      GoalsWithout(init, i, elapsed, home, forHome);
      assert Without(events, i) == Without(init, i) + [last];
      GoalsSnoc(Without(init, i), last, elapsed, home, forHome);
    }
  }

  /** An own goal counts for the side it is filed under and for no other. The note
      beside `credited_to` says that is the side that conceded it; nothing in the
      code hands it to the one that benefits. */
  lemma OwnGoalCountsForItsTeam(events: seq<MatchEvent>, i: nat, elapsed: real, home: string, forHome: bool)
    requires i < |events| && events[i].kind == "own-goal" && events[i].seconds <= elapsed
    ensures Goals(events, elapsed, home, forHome) == Goals(Without(events, i), elapsed, home, forHome)
              + if (events[i].team == home) == forHome then 1 else 0
  {
    GoalsWithout(events, i, elapsed, home, forHome);
    assert "own-goal" in SCORING_KINDS;
  }

  // ---- the state of a game, and the instants to forecast from ----

  datatype GameState = GameState(
    gameId: string,
    league: string,
    inProgress: bool,
    home: string,
    away: string,
    homeScore: nat,
    awayScore: nat,
    firstPeriod: bool,
    minute: nat,
    recent: seq<MatchEvent>)

  function Recent(elapsed: real): MatchEvent -> bool {
    (e: MatchEvent) => e.seconds <= elapsed && elapsed - e.seconds <= 600.0
  }

  function LastFour<T>(xs: seq<T>): seq<T> {
    if |xs| > 4 then xs[|xs| - 4..] else xs
  }

  function StateAt(t: Timeline, at: int): GameState {
    var minute := Minute(t.Elapsed(at));
    GameState(t.gameId, t.league, minute <= 100, t.home, t.away, HomeGoals(t, at), AwayGoals(t, at),
              minute < 45, minute, LastFour(Where(t.events, Recent(t.Elapsed(at)))))
  }

  lemma {:induction false} GoalsAreCounts(events: seq<MatchEvent>, elapsed: real, home: string)
    ensures Goals(events, elapsed, home, true) == |Where(events, HomeGoal(elapsed, home))|
    ensures Goals(events, elapsed, home, false) == |Where(events, AwayGoal(elapsed, home))|
  {
    if events != [] { GoalsAreCounts(events[..|events| - 1], elapsed, home); }
  }

  function HomeGoal(elapsed: real, home: string): MatchEvent -> bool {
    (e: MatchEvent) => e.kind in SCORING_KINDS && e.seconds <= elapsed && e.team == home
  }

  function AwayGoal(elapsed: real, home: string): MatchEvent -> bool {
    (e: MatchEvent) => e.kind in SCORING_KINDS && e.seconds <= elapsed && e.team != home
  }

  /** What the state of a game at an instant says: the goals of either side by
      then, the minute that has begun, the period and whether the game is on by
      that minute, and the newest four events of the last ten minutes. */
  lemma StateIs(t: Timeline, at: int)
    ensures var s, elapsed := StateAt(t, at), (at - t.kickoff) as real;
            && s.gameId == t.gameId && s.league == t.league && s.home == t.home && s.away == t.away
            && s.homeScore == |Where(t.events, HomeGoal(elapsed, t.home))|
            && s.awayScore == |Where(t.events, AwayGoal(elapsed, t.home))|
            && (elapsed < 0.0 ==> s.minute == 0)
            && (elapsed >= 0.0 ==> 60.0 * s.minute as real <= elapsed < 60.0 * (s.minute + 1) as real)
            && (s.inProgress <==> s.minute <= 100) && (s.firstPeriod <==> s.minute < 45)
            && |s.recent| <= 4
            && exists older :: older + s.recent == Where(t.events, Recent(elapsed))
                                 && (|s.recent| < 4 ==> older == [])
    ensures forall e :: Recent((at - t.kickoff) as real)(e) <==>
              0.0 <= (at - t.kickoff) as real - e.seconds <= 600.0
  {
    var elapsed := t.Elapsed(at);
    GoalsAreCounts(t.events, elapsed, t.home);
    var all := Where(t.events, Recent(elapsed));
    var s := StateAt(t, at);
    assert all[..|all| - |s.recent|] + s.recent == all;
  }

  /** All instants from the first on, `every` minutes apart, and no later one. */
  method Windows(t: Timeline, every: int, skipFirst: int, until: int) returns (out: seq<int>)
    requires every > 0
    ensures forall i :: 0 <= i < |out| ==>
              out[i] == t.kickoff + 60 * (skipFirst + i * every) && skipFirst + i * every <= until
    ensures skipFirst + |out| * every > until
  {
    out := [];
    var minute := skipFirst;
    while minute <= until
      invariant minute == skipFirst + |out| * every
      invariant forall i :: 0 <= i < |out| ==>
                  out[i] == t.kickoff + 60 * (skipFirst + i * every) && skipFirst + i * every <= until
      decreases until - minute
    {
      out := out + [t.kickoff + 60 * minute];
      minute := minute + every;
    }
  }

  /** `realised_mid`: what a forecast made at `at` is scored against. */
  method RealisedMid(server: Server, at: int, minutes: int) returns (mid: Option<real>)
    ensures var c := QuoteAt(server, at + 60 * minutes, 1);
            && (mid.Some? <==> c.Some? && c.value.TwoSided())
            && (mid.Some? ==> c.value.bid.Some? && c.value.ask.Some?
                              && mid.value + mid.value == c.value.bid.value + c.value.ask.value)
  {
    var candle := QuoteAt(server, at + 60 * minutes, 1);
    if candle.None? || !candle.value.TwoSided() {
      return if candle.Some? then candle.value.Mid() else None;
    }
    return candle.value.Mid();
  }

  // ---- the frozen tools ----

  datatype Print = Print(ts: int, price: real, count: real, taker: string)

  /** All a replay could look at: the exchange's candles, the market's hours and
      trades (newest first), and the match. */
  datatype World = World(server: Server, listed: int, closes: int, prints: seq<Print>, timeline: Timeline)

  function FrozenQuote(w: World, at: int): Option<Candle> {
    QuoteAt(w.server, at, 1)
  }

  function FrozenPath(w: World, at: int, start: int, now: int): seq<Candle> {
    PricePath(w.server, w.listed, w.closes, now, Some(start), Some(at), 1, true)
  }

  function PrintedIn(from: int, to: int): Print -> bool {
    (p: Print) => from <= p.ts <= to
  }

  function PrintedUntil(to: int): Print -> bool {
    (p: Print) => p.ts <= to
  }

  /** Python's `xs[:limit]`: a negative limit drops from the end. */
  function Slice<T>(xs: seq<T>, limit: int): seq<T> {
    if limit >= |xs| then xs
    else if limit >= 0 then xs[..limit]
    else if |xs| + limit >= 0 then xs[..|xs| + limit]
    else []
  }

  /** The tape: the exchange filters by time, and at least fifty are asked for. */
  function FrozenTape(w: World, at: int, limit: int): seq<Print> {
    var hour := Where(w.prints, PrintedIn(at - 3600, at));
    Slice(KalshiClient.Capped(hour, Some(if limit >= 50 then limit else 50)), limit)
  }

  /** For any limit that is not negative, the newest prints of the last hour. */
  lemma TapeIsNewest(w: World, at: int, limit: nat)
    ensures FrozenTape(w, at, limit) == Slice(Where(w.prints, PrintedIn(at - 3600, at)), limit)
    ensures forall p :: PrintedIn(at - 3600, at)(p) <==> at - 3600 <= p.ts <= at
  {
  }

  /** A negative one drops as many of the newest fifty from the old end. */
  lemma NegativeTape(w: World, at: int, limit: int)
    requires limit < 0
    ensures var hour, tape := Where(w.prints, PrintedIn(at - 3600, at)), FrozenTape(w, at, limit);
            var left := (if |hour| <= 50 then |hour| else 50) + limit;
            tape <= hour && |tape| == if left >= 0 then left else 0
  {
  }

  /** What the frozen tools show of an exchange that holds `all`: the latest candle
      of the last four hours, and the candles from the start to the instant, or to
      the close if that is sooner. */
  lemma FrozenShows(w: World, all: seq<Candle>, at: int, start: int, now: int, x: Candle)
    requires w.server == Exchange(all)
    ensures FrozenQuote(w, at) == Some(x) ==>
              && x in all && at - 4 * 3600 <= x.ts <= at
              && forall y :: y in all && y.ts <= at ==> y.ts <= x.ts
    ensures FrozenQuote(w, at).None? <==> forall y :: y in all ==> !(at - 4 * 3600 <= y.ts <= at)
    ensures x in FrozenPath(w, at, start, now) <==>
              x in all && start <= x.ts <= at && x.ts <= w.closes && start < at && start < w.closes
  {
    hide Candles;
    QuoteIsLatest(all, at, 1);
    PathHas(all, w.listed, w.closes, now, Some(start), Some(at), 1, true, x);
  }

  /** Two worlds with the same past: what differs lies after `at`. */
  ghost predicate SamePast(v: World, w: World, at: int) {
    && AgreeUntil(v.server, w.server, at)
    && Earlier(at, v.closes) == Earlier(at, w.closes)
    && Where(v.prints, PrintedUntil(at)) == Where(w.prints, PrintedUntil(at))
    && v.timeline.(events := []) == w.timeline.(events := [])
    && Where(v.timeline.events, HappenedBy(v.timeline.Elapsed(at)))
       == Where(w.timeline.events, HappenedBy(v.timeline.Elapsed(at)))
  }

  function HappenedBy(elapsed: real): MatchEvent -> bool {
    (e: MatchEvent) => e.seconds <= elapsed
  }

  lemma PastSnoc(events: seq<MatchEvent>, e: MatchEvent, elapsed: real)
    ensures Where(events + [e], HappenedBy(elapsed)) ==
            if e.seconds <= elapsed then Where(events, HappenedBy(elapsed)) + [e]
            else Where(events, HappenedBy(elapsed))
  {
    WhereSnoc(events, e, HappenedBy(elapsed));
  }

  lemma GoalsSnoc(events: seq<MatchEvent>, e: MatchEvent, elapsed: real, home: string, forHome: bool)
    ensures Goals(events + [e], elapsed, home, forHome) ==
            Goals(events, elapsed, home, forHome)
              + if e.Scored() && e.seconds <= elapsed && (e.team == home) == forHome then 1 else 0
  {
    assert (events + [e])[..|events|] == events;
  }

  lemma {:induction false} GoalsOfPast(events: seq<MatchEvent>, elapsed: real, home: string, forHome: bool)
    ensures Goals(Where(events, HappenedBy(elapsed)), elapsed, home, forHome) == Goals(events, elapsed, home, forHome)
  {
    if events != [] {
      hide Where, Goals, HappenedBy, MatchEvent.Scored;
      var init, e := events[..|events| - 1], events[|events| - 1];
      assert events == init + [e];
      var past := Where(init, HappenedBy(elapsed));
      GoalsOfPast(init, elapsed, home, forHome);
      PastSnoc(init, e, elapsed);
      GoalsSnoc(init, e, elapsed, home, forHome);
      GoalsSnoc(past, e, elapsed, home, forHome);
    }
  }

  /** The state of the game at an instant is the same in both. */
  lemma StateSeesNoFuture(v: World, w: World, at: int)
    requires SamePast(v, w, at)
    ensures StateAt(v.timeline, at) == StateAt(w.timeline, at)
  {
    var s, t := v.timeline, w.timeline;
    var elapsed := s.Elapsed(at);
    assert t.kickoff == t.(events := []).kickoff && s.kickoff == s.(events := []).kickoff;
    assert t.home == t.(events := []).home && s.home == s.(events := []).home;
    GoalsOfPast(s.events, elapsed, s.home, true);
    GoalsOfPast(t.events, elapsed, s.home, true);
    GoalsOfPast(s.events, elapsed, s.home, false);
    GoalsOfPast(t.events, elapsed, s.home, false);
    WhereWhere(s.events, HappenedBy(elapsed), Recent(elapsed));
    WhereWhere(t.events, HappenedBy(elapsed), Recent(elapsed));
    assert t.gameId == t.(events := []).gameId && s.gameId == s.(events := []).gameId;
    assert t.league == t.(events := []).league && s.league == s.(events := []).league;
    assert t.away == t.(events := []).away && s.away == s.(events := []).away;
  }

  /** The whole contract of a replay: whatever an agent asks of its three tools
      at `at`, two worlds with the same past give the same answers. The quote
      needs nothing of the exchange; path and tape need it to keep to the end
      of a request. */
  lemma ReplaySeesNoFuture(v: World, w: World, at: int, start: int, now: int, limit: int)
    requires SamePast(v, w, at)
    ensures FrozenQuote(v, at) == FrozenQuote(w, at)
    ensures KeepsEnd(v.server) && KeepsEnd(w.server) ==> FrozenPath(v, at, start, now) == FrozenPath(w, at, start, now)
    ensures FrozenTape(v, at, limit) == FrozenTape(w, at, limit)
  {
    hide Candles, Where;
    QuoteSeesNoFuture(v.server, w.server, at, 1);
    if KeepsEnd(v.server) && KeepsEnd(w.server) {
      CandlesSeeNoFuture(v.server, w.server, at, start, Earlier(at, v.closes), Span(1));
    }
    WhereWhere(v.prints, PrintedUntil(at), PrintedIn(at - 3600, at));
    WhereWhere(w.prints, PrintedUntil(at), PrintedIn(at - 3600, at));
  }
}
