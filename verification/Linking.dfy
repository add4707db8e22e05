/** Fixtures in tickers (`topics/kalshi/tools/_linking.py`). */
module Linking {
  import opened Prelude

  predicate IsUpper(c: char) {
    'A' <= c <= 'Z'
  }

  predicate AllUpper(s: string) {
    forall i :: 0 <= i < |s| ==> IsUpper(s[i])
  }

  /** Letters and digits of a team blob. */
  predicate AllCode(s: string) {
    forall i :: 0 <= i < |s| ==> IsUpper(s[i]) || IsDigit(s[i])
  }

  const MONTHS: seq<string> := [
    "JAN", "FEB", "MAR", "APR", "MAY", "JUN", "JUL", "AUG", "SEP", "OCT", "NOV", "DEC"]

  /** The month a name stands for, 1 to 12. */
  function MonthOf(name: string): (r: Option<nat>)
    ensures r.Some? ==> 1 <= r.value <= 12 && MONTHS[r.value - 1] == name
    ensures r.None? <==> name !in MONTHS
  {
    if name == "JAN" then Some(1) else if name == "FEB" then Some(2) else if name == "MAR" then Some(3)
    else if name == "APR" then Some(4) else if name == "MAY" then Some(5) else if name == "JUN" then Some(6)
    else if name == "JUL" then Some(7) else if name == "AUG" then Some(8) else if name == "SEP" then Some(9)
    else if name == "OCT" then Some(10) else if name == "NOV" then Some(11) else if name == "DEC" then Some(12)
    else None
  }

  function DaysIn(year: nat, month: nat): nat {
    if month in {4, 6, 9, 11} then 30
    else if month == 2 then
      if year % 4 == 0 && (year % 100 != 0 || year % 400 == 0) then 29 else 28
    else 31
  }

  predicate IsDate(year: nat, month: nat, day: nat) {
    1 <= month <= 12 && 1 <= day <= DaysIn(year, month)
  }

  /** Thirty days have April, June, September and November, twenty-eight February,
      or one more in a leap year, and all the others thirty-one. */
  lemma DaysAre(year: nat, month: nat)
    requires 1 <= month <= 12
    ensures month == 4 || month == 6 || month == 9 || month == 11 ==> DaysIn(year, month) == 30
    ensures month == 2 ==>
              DaysIn(year, month) == if (year % 4 == 0 && year % 100 != 0) || year % 400 == 0 then 29 else 28
    ensures month in {1, 3, 5, 7, 8, 10, 12} ==> DaysIn(year, month) == 31
    ensures forall day: nat :: IsDate(year, month, day) <==> 1 <= day <= DaysIn(year, month)
  {
    if year % 400 == 0 { FourDivides(year, year / 400); }
  }

  lemma FourDivides(year: nat, n: nat)
    requires year == 400 * n
    ensures year % 4 == 0
  {
    assert year == 4 * (100 * n);
  }

  // ---- parsing ----

  /** Python's `partition("-")`: what is before the first dash, and what is
      after it if there is one. */
  function Partition(s: string): (string, Option<string>) {
    if s == "" then ("", None)
    else if s[0] == '-' then ("", Some(s[1..]))
    else
      var (head, tail) := Partition(s[1..]);
      ([s[0]] + head, tail)
  }

  datatype Segment = Segment(yy: string, mon: string, dd: string, hhmm: Option<string>, teams: string)

  /** What the expression for a fixture segment matches. Its optional time is
      taken whenever what is left of the segment can still be a team blob. */
  function MatchSegment(s: string): Option<Segment> {
    if |s| < 8 || !AllDigits(s[..2]) || !AllUpper(s[2..5]) || !AllDigits(s[5..7]) || !AllCode(s[7..]) then None
    else
      var tail := s[7..];
      if |tail| > 4 && AllDigits(tail[..4]) then
        Some(Segment(s[..2], s[2..5], s[5..7], Some(tail[..4]), tail[4..]))
      else
        Some(Segment(s[..2], s[2..5], s[5..7], None, tail))
  }

  /** A reading of a segment by the grammar of the expression. */
  predicate Reads(s: string, seg: Segment) {
    && |seg.yy| == 2 && |seg.mon| == 3 && |seg.dd| == 2 && (seg.hhmm.Some? ==> |seg.hhmm.value| == 4)
    && AllDigits(seg.yy) && AllDigits(seg.dd) && (seg.hhmm.Some? ==> AllDigits(seg.hhmm.value))
    && (forall i :: 0 <= i < 3 ==> 'A' <= seg.mon[i] <= 'Z')
    && seg.teams != ""
    && (forall i :: 0 <= i < |seg.teams| ==> 'A' <= seg.teams[i] <= 'Z' || '0' <= seg.teams[i] <= '9')
    && s == seg.yy + seg.mon + seg.dd + ((if seg.hhmm.Some? then seg.hhmm.value else "") + seg.teams)
  }

  /** A segment matches when the grammar has a reading of it; of two readings
      the one with a time is taken, and with or without a time there is only one. */
  lemma MatchIsGrammar(s: string, seg: Segment)
    ensures MatchSegment(s).Some? ==> Reads(s, MatchSegment(s).value)
    ensures Reads(s, seg) ==>
              && MatchSegment(s).Some?
              && (seg.hhmm.Some? ==> MatchSegment(s) == Some(seg))
              && (MatchSegment(s).value.hhmm.None? ==> MatchSegment(s) == Some(seg))
  {
    if MatchSegment(s).Some? {
      var m := MatchSegment(s).value;
      var tail := s[7..];
      assert s == s[..2] + s[2..5] + s[5..7] + tail;
      assert tail == (if m.hhmm.Some? then m.hhmm.value else "") + m.teams;
    }
    if Reads(s, seg) {
      var tail := (if seg.hhmm.Some? then seg.hhmm.value else "") + seg.teams;
      SegmentParts(seg.yy, seg.mon, seg.dd, tail);
      assert seg.hhmm.Some? ==> tail[..4] == seg.hhmm.value && tail[4..] == seg.teams;
      assert seg.hhmm.None? ==> tail == seg.teams;
    }
  }

  datatype Fixture = Fixture(
    series: string,
    year: nat,
    month: nat,
    day: nat,
    start: Option<(nat, nat)>,
    blob: string,
    suffix: string)

  function StartOf(hhmm: string): Option<(nat, nat)>
    requires |hhmm| == 4 && AllDigits(hhmm)
  {
    var hh, mm := ToNat(hhmm[..2]), ToNat(hhmm[2..]);
    if hh < 24 && mm < 60 then Some((hh, mm)) else None
  }

  function Dated(series: string, seg: Segment, suffix: string): Option<Fixture>
    requires AllDigits(seg.yy) && AllDigits(seg.dd)
    requires seg.hhmm.Some? ==> |seg.hhmm.value| == 4 && AllDigits(seg.hhmm.value)
  {
    var month := MonthOf(seg.mon);
    if month.None? then None
    else
      var year, day := 2000 + ToNat(seg.yy), ToNat(seg.dd);
      if !IsDate(year, month.value, day) then None
      else
        Some(Fixture(series, year, month.value, day,
                     if seg.hhmm.Some? then StartOf(seg.hhmm.value) else None, seg.teams, suffix))
  }

  function Parse(ticker: string): Option<Fixture> {
    var (series, rest) := Partition(ticker);
    if rest.None? then None
    else
      var (segment, more) := Partition(rest.value);
      var seg := MatchSegment(segment);
      if seg.None? then None
      else Dated(series, seg.value, if more.Some? then more.value else "")
  }

  // ---- printing ----

  function TwoDigits(n: nat): string {
    [('0' as int + n / 10 % 10) as char, ('0' as int + n % 10) as char]
  }

  function TimePart(start: Option<(nat, nat)>): string {
    if start.None? then "" else TwoDigits(start.value.0) + TwoDigits(start.value.1)
  }

  function PrintSegment(f: Fixture): string
    requires 2000 <= f.year && 1 <= f.month <= 12
  {
    TwoDigits(f.year - 2000) + MONTHS[f.month - 1] + TwoDigits(f.day) + (TimePart(f.start) + f.blob)
  }

  function Print(f: Fixture): string
    requires 2000 <= f.year && 1 <= f.month <= 12
  {
    f.series + "-" + (PrintSegment(f) + if f.suffix == "" then "" else "-" + f.suffix)
  }

  /** A fixture as an exchange can name one. */
  predicate Nameable(f: Fixture) {
    && '-' !in f.series
    && 2000 <= f.year < 2100 && IsDate(f.year, f.month, f.day)
    && (f.start.Some? ==> f.start.value.0 < 24 && f.start.value.1 < 60)
    && f.blob != "" && AllCode(f.blob)
  }

  lemma {:induction false} PartitionAt(head: string, tail: string)
    requires '-' !in head
    ensures Partition(head + "-" + tail) == (head, Some(tail))
    ensures Partition(head) == (head, None)
  {
    if head == "" {
      assert head + "-" + tail == "-" + tail && ("-" + tail)[1..] == tail;
    } else {
      PartitionAt(head[1..], tail);
      assert (head + "-" + tail)[1..] == head[1..] + "-" + tail;
      assert head == [head[0]] + head[1..];
    }
  }

  lemma TwoDigitsBack(n: nat)
    requires n < 100
    ensures |TwoDigits(n)| == 2 && AllDigits(TwoDigits(n)) && ToNat(TwoDigits(n)) == n
  {
    var s := TwoDigits(n);
    assert s[..1] == [s[0]] && s[..1][..0] == "";
    assert ToNat(s[..1]) == n / 10;
  }

  lemma MonthNames(month: nat)
    requires 1 <= month <= 12
    ensures |MONTHS[month - 1]| == 3 && AllUpper(MONTHS[month - 1]) && MonthOf(MONTHS[month - 1]) == Some(month)
  {
  }

  /** The number of each name: January is 1, and so on. */
  lemma MonthNumbers()
    ensures MONTHS[..6] == ["JAN", "FEB", "MAR", "APR", "MAY", "JUN"]
    ensures MONTHS[6..] == ["JUL", "AUG", "SEP", "OCT", "NOV", "DEC"]
    ensures forall month :: 1 <= month <= 12 ==> MonthOf(MONTHS[month - 1]) == Some(month)
  {
    hide MonthOf;
    forall month | 1 <= month <= 12 ensures MonthOf(MONTHS[month - 1]) == Some(month) {
      MonthNames(month);
    }
  }

  /** The blob reads as a time and a shorter blob. */
  predicate ReadsAsTime(f: Fixture) {
    f.start.None? && |f.blob| > 4 && AllDigits(f.blob[..4])
  }

  lemma SegmentParts(yy: string, mon: string, dd: string, tail: string)
    requires |yy| == 2 && |mon| == 3 && |dd| == 2
    ensures var s := yy + mon + dd + tail;
            s[..2] == yy && s[2..5] == mon && s[5..7] == dd && s[7..] == tail && |s| == 7 + |tail|
  {
  }

  lemma MatchParts(yy: string, mon: string, dd: string, tail: string)
    requires |yy| == 2 && |mon| == 3 && |dd| == 2 && tail != ""
    requires AllDigits(yy) && AllUpper(mon) && AllDigits(dd) && AllCode(tail)
    ensures MatchSegment(yy + mon + dd + tail) ==
            Some(if |tail| > 4 && AllDigits(tail[..4]) then Segment(yy, mon, dd, Some(tail[..4]), tail[4..])
                 else Segment(yy, mon, dd, None, tail))
  {
    SegmentParts(yy, mon, dd, tail);
  }

  lemma NoDash(f: Fixture)
    requires Nameable(f)
    ensures '-' !in PrintSegment(f)
  {
    MonthNames(f.month);
    TwoDigitsBack(f.year - 2000);
    TwoDigitsBack(f.day);
    TimeIsDigits(f);
    var a, b, c, d := TwoDigits(f.year - 2000), MONTHS[f.month - 1], TwoDigits(f.day), TimePart(f.start);
    assert '-' !in a && '-' !in b && '-' !in c && '-' !in d && '-' !in f.blob;
  }

  lemma TimeIsDigits(f: Fixture)
    requires Nameable(f)
    ensures AllDigits(TimePart(f.start)) && |TimePart(f.start)| == (if f.start.Some? then 4 else 0)
    ensures f.start.Some? ==> StartOf(TimePart(f.start)) == f.start
  {
    if f.start.Some? {
      var (hh, mm) := f.start.value;
      TwoDigitsBack(hh);
      TwoDigitsBack(mm);
      assert TimePart(f.start)[..2] == TwoDigits(hh) && TimePart(f.start)[2..] == TwoDigits(mm);
    }
  }

  /** The time and blob a printed segment is read back with. */
  lemma SegmentBack(f: Fixture)
    requires Nameable(f)
    ensures var seg := MatchSegment(PrintSegment(f));
            && seg.Some?
            && seg.value.yy == TwoDigits(f.year - 2000)
            && seg.value.mon == MONTHS[f.month - 1]
            && seg.value.dd == TwoDigits(f.day)
            && seg.value.hhmm == (if f.start.Some? then Some(TimePart(f.start))
                                  else if ReadsAsTime(f) then Some(f.blob[..4]) else None)
            && seg.value.teams == (if ReadsAsTime(f) then f.blob[4..] else f.blob)
  {
    MonthNames(f.month);
    TwoDigitsBack(f.year - 2000);
    TwoDigitsBack(f.day);
    TimeIsDigits(f);
    hide MatchSegment, TwoDigits, ToNat;
    var tail := TimePart(f.start) + f.blob;
    MatchParts(TwoDigits(f.year - 2000), MONTHS[f.month - 1], TwoDigits(f.day), tail);
    if f.start.Some? {
      assert tail[..4] == TimePart(f.start) && tail[4..] == f.blob;
    } else {
      assert tail == f.blob;
    }
  }

  /** Parsing a printed ticker recovers every field, unless the fixture has no
      time and its blob has more than four characters and begins with four
      digits: then those are read as the time. */
  lemma PrintParse(f: Fixture)
    requires Nameable(f)
    ensures Parse(Print(f)) == Some(f) <==> !ReadsAsTime(f)
    ensures ReadsAsTime(f) ==>
              Parse(Print(f)) == Some(f.(start := StartOf(f.blob[..4]), blob := f.blob[4..]))
  {
    hide MatchSegment, PrintSegment, ToNat, Partition;
    var tail := if f.suffix == "" then "" else "-" + f.suffix;
    PartitionAt(f.series, PrintSegment(f) + tail);
    NoDash(f);
    if f.suffix == "" {
      assert PrintSegment(f) + tail == PrintSegment(f);
      PartitionAt(PrintSegment(f), "");
    } else {
      assert PrintSegment(f) + tail == PrintSegment(f) + "-" + f.suffix;
      PartitionAt(PrintSegment(f), f.suffix);
    }
    SegmentBack(f);
    MonthNames(f.month);
    TwoDigitsBack(f.year - 2000);
    TwoDigitsBack(f.day);
    TimeIsDigits(f);
  }

  /** The segment reads as a real date. */
  ghost predicate ReadsAsDate(s: string) {
    exists seg :: Reads(s, seg) && MonthOf(seg.mon).Some?
                    && IsDate(2000 + ToNat(seg.yy), MonthOf(seg.mon).value, ToNat(seg.dd))
  }

  /** A ticker parses if and only if what follows its series, up to the next dash,
      reads as a real date. */
  lemma ParsesIff(series: string, segment: string, suffix: string)
    requires '-' !in series && '-' !in segment
    ensures Parse(series + "-" + segment).Some? <==> ReadsAsDate(segment)
    ensures Parse(series + "-" + (segment + "-" + suffix)).Some? <==> ReadsAsDate(segment)
    ensures Parse(series).None?
  {
    hide MatchSegment, Partition, Reads, MonthOf, IsDate, ToNat;
    PartitionAt(series, segment);
    PartitionAt(series, segment + "-" + suffix);
    PartitionAt(segment, suffix);
    if MatchSegment(segment).Some? {
      MatchIsGrammar(segment, MatchSegment(segment).value);
    }
    forall seg | Reads(segment, seg)
      ensures MatchSegment(segment).Some? && SameDate(MatchSegment(segment).value, seg)
    {
      MatchIsGrammar(segment, seg);
      DateParts(segment, seg, MatchSegment(segment).value);
    }
  }

  predicate SameDate(a: Segment, b: Segment) {
    a.yy == b.yy && a.mon == b.mon && a.dd == b.dd
  }

  lemma DateParts(s: string, a: Segment, b: Segment)
    requires Reads(s, a) && Reads(s, b)
    ensures SameDate(b, a)
  {
    SegmentParts(a.yy, a.mon, a.dd, (if a.hhmm.Some? then a.hhmm.value else "") + a.teams);
    SegmentParts(b.yy, b.mon, b.dd, (if b.hhmm.Some? then b.hhmm.value else "") + b.teams);
  }

  lemma TwoDigitNumber(s: string)
    requires |s| == 2 && AllDigits(s)
    ensures ToNat(s) < 100
  {
    assert s[..1][..0] == "";
    assert ToNat(s[..1]) == s[0] as int - '0' as int;
  }

  /** Whatever parses is a real date of this century with a blob, and a time of
      day if it has one. */
  lemma ParsedIsSensible(ticker: string)
    requires Parse(ticker).Some?
    ensures var f := Parse(ticker).value;
            && 2000 <= f.year < 2100 && IsDate(f.year, f.month, f.day)
            && (f.start.Some? ==> f.start.value.0 < 24 && f.start.value.1 < 60)
            && f.blob != "" && AllCode(f.blob)
            && '-' in ticker
  {
    if '-' !in ticker { PartitionAt(ticker, ""); }
    TwoDigitNumber(MatchSegment(Partition(Partition(ticker).1.value).0).value.yy);
  }

  // ---- splitting a blob ----

  function Gap(blob: string, i: nat): nat {
    if 2 * i >= |blob| then 2 * i - |blob| else |blob| - 2 * i
  }

  predicate Splits(blob: string, codes: set<string>, i: nat) {
    2 <= i <= |blob| - 2 && blob[..i] in codes && blob[i..] in codes
  }

  /** The order in which the candidates are sorted: the gap, then the left code,
      which of two prefixes of one blob is the shorter. */
  predicate Before(blob: string, i: nat, j: nat) {
    Gap(blob, i) < Gap(blob, j) || (Gap(blob, i) == Gap(blob, j) && i < j)
  }

  /** The most balanced split into two known codes of two characters at least,
      the shorter left code on a tie; None exactly when there is no split. */
  method SplitTeamBlob(blob: string, codes: set<string>) returns (r: Option<(string, string)>)
    ensures r.None? <==> forall i: nat :: !Splits(blob, codes, i)
    ensures r.Some? ==>
              && r.value.0 + r.value.1 == blob
              && Splits(blob, codes, |r.value.0|)
              && forall j: nat :: Splits(blob, codes, j) && j != |r.value.0| ==> Before(blob, |r.value.0|, j)
  {
    var best: Option<nat> := None;
    var i := 2;
    while i < |blob| - 1
      invariant 2 <= i
      invariant best.None? ==> forall j: nat :: Splits(blob, codes, j) ==> j >= i
      invariant best.Some? ==>
                  && best.value < i && Splits(blob, codes, best.value)
                  && forall j: nat :: Splits(blob, codes, j) && j < i && j != best.value ==> Before(blob, best.value, j)
    {
      if blob[..i] in codes && blob[i..] in codes {
        if best.None? || Before(blob, i, best.value) {
          best := Some(i);
        }
      }
      i := i + 1;
    }
    if best.None? {
      return None;
    }
    return Some((blob[..best.value], blob[best.value..]));
  }

  /** What the tuple order says of two left codes of one blob. */
  predicate LexLess(a: string, b: string) {
    if a == "" || b == "" then a == "" && b != ""
    else a[0] < b[0] || (a[0] == b[0] && LexLess(a[1..], b[1..]))
  }

  lemma {:induction false} ShorterPrefixIsLess(blob: string, i: nat, j: nat)
    requires i <= |blob| && j <= |blob|
    ensures LexLess(blob[..i], blob[..j]) <==> i < j
  {
    if i > 0 && j > 0 {
      ShorterPrefixIsLess(blob[1..], i - 1, j - 1);
      assert blob[..i][1..] == blob[1..][..i - 1] && blob[..j][1..] == blob[1..][..j - 1];
    }
  }

  // ---- one key for all bets on a fixture ----

  /** `split("-")`. */
  function Split(s: string): (r: seq<string>)
    ensures |r| >= 1
    decreases |s|
  {
    var (head, tail) := Partition(s);
    PartitionShrinks(s);
    if tail.None? then [head] else [head] + Split(tail.value)
  }

  lemma PartitionShrinks(s: string)
    ensures var (head, tail) := Partition(s);
            && '-' !in head
            && (tail.Some? ==> s == head + "-" + tail.value)
            && (tail.None? ==> s == head)
  {
    if s != "" && s[0] != '-' {
      PartitionShrinks(s[1..]);
      assert s == [s[0]] + s[1..];
    }
  }

  function Join(parts: seq<string>): string {
    if parts == [] then ""
    else if |parts| == 1 then parts[0]
    else parts[0] + "-" + Join(parts[1..])
  }

  predicate IsDated(s: string) {
    |s| >= 8 && AllDigits(s[..2]) && AllUpper(s[2..5]) && AllDigits(s[5..7]) && AllCode(s[7..])
  }

  /** What a fixture segment is, date or not. */
  lemma DatedIsSegment(s: string)
    ensures IsDated(s) <==> exists seg :: Reads(s, seg)
  {
    if MatchSegment(s).Some? { MatchIsGrammar(s, MatchSegment(s).value); }
    forall seg | Reads(s, seg) ensures MatchSegment(s).Some? {
      MatchIsGrammar(s, seg);
    }
  }

  function FixtureKey(ticker: string): string {
    var parts := Split(ticker);
    if |parts| >= 3 then Join(parts[1..|parts| - 1])
    else if |parts| == 2 && IsDated(parts[1]) then parts[1]
    else parts[0]
  }

  lemma SplitCons(head: string, tail: string)
    requires '-' !in head
    ensures Split(head + "-" + tail) == [head] + Split(tail)
  {
    PartitionAt(head, tail);
  }

  lemma SplitOne(s: string)
    requires '-' !in s
    ensures Split(s) == [s]
  {
    PartitionAt(s, "");
  }

  lemma DatedHasNoDash(s: string)
    requires IsDated(s)
    ensures '-' !in s
  {
    assert s == s[..2] + s[2..5] + s[5..7] + s[7..];
    assert '-' !in s[..2] && '-' !in s[2..5] && '-' !in s[5..7] && '-' !in s[7..];
  }

  /** Every market on a fixture has the same key whatever its series and outcome,
      and so has an event of it whose ticker ends with the fixture. */
  lemma KeyIsFixture(series: string, fixture: string, outcome: string)
    requires '-' !in series && '-' !in outcome && IsDated(fixture)
    ensures FixtureKey(series + "-" + (fixture + "-" + outcome)) == fixture
    ensures FixtureKey(series + "-" + fixture) == fixture
  {
    DatedHasNoDash(fixture);
    SplitCons(series, fixture + "-" + outcome);
    SplitCons(fixture, outcome);
    SplitOne(outcome);
    SplitCons(series, fixture);
    SplitOne(fixture);
    var parts := [series, fixture, outcome];
    assert [series] + ([fixture] + [outcome]) == parts;
    assert parts[1..2] == [fixture];
    assert [series] + [fixture] == [series, fixture];
  }

  /** What is no fixture is keyed by its series. */
  lemma OtherwiseSeries(series: string, rest: string)
    requires '-' !in series && '-' !in rest && !IsDated(rest)
    ensures FixtureKey(series) == series && FixtureKey(series + "-" + rest) == series
  {
    SplitCons(series, rest);
    SplitOne(series);
    SplitOne(rest);
    assert [series] + [rest] == [series, rest];
  }

  /** An event that ends with a map or game number is keyed without it, and its
      own markets with it, so the two never meet. */
  lemma NumberedEventKeyedApart(series: string, fixture: string, number: string, outcome: string)
    requires '-' !in series && '-' !in number && '-' !in outcome && IsDated(fixture)
    ensures FixtureKey(series + "-" + (fixture + "-" + number)) == fixture
    ensures FixtureKey(series + "-" + (fixture + "-" + (number + "-" + outcome))) == fixture + "-" + number
    ensures fixture != fixture + "-" + number
  {
    KeyIsFixture(series, fixture, number);
    DatedHasNoDash(fixture);
    SplitCons(series, fixture + "-" + (number + "-" + outcome));
    SplitCons(fixture, number + "-" + outcome);
    SplitCons(number, outcome);
    SplitOne(outcome);
    var parts := [series, fixture, number, outcome];
    assert [series] + ([fixture] + ([number] + [outcome])) == parts;
    assert parts[1..3] == [fixture, number] && [fixture, number][1..] == [number];
    assert Join([number]) == number;
    assert |fixture + "-" + number| > |fixture|;
  }

  // ---- the names of the clubs ----

  /** A market's code and the outcome it is labelled with, already stripped. */
  datatype Label = Label(code: string, name: string)

  const NOT_A_CLUB: set<string> := {"tie", "draw", "both teams to score", "no goal", "yes", "no"}

  function Lower(s: string): string {
    seq(|s|, i requires 0 <= i < |s| => if IsUpper(s[i]) then (s[i] as int + 32) as char else s[i])
  }

  predicate NamesAClub(m: Label) {
    && m.code != "" && m.name != ""
    && (forall i :: 0 <= i < |m.name| ==> !IsDigit(m.name[i]))
    && Lower(m.name) !in NOT_A_CLUB
  }

  /** The same letters, those of `a` in either case and those of `b` small. */
  predicate SameLetters(a: string, b: string) {
    |a| == |b| && forall i :: 0 <= i < |a| ==>
      if 'A' <= a[i] <= 'Z' then b[i] as int == a[i] as int - 'A' as int + 'a' as int else b[i] == a[i]
  }

  lemma LowerIs(s: string, low: string)
    ensures Lower(s) == low <==> SameLetters(s, low)
  {
    if SameLetters(s, low) {
      forall i | 0 <= i < |s| ensures Lower(s)[i] == low[i] {
      }
    }
  }

  /** A label names a club if it has a code and a name without a digit that is
      none of the six that stand for something else. */
  lemma ClubIs(m: Label)
    ensures NamesAClub(m) <==>
              && m.code != "" && m.name != ""
              && (forall i :: 0 <= i < |m.name| ==> !('0' <= m.name[i] <= '9'))
              && !SameLetters(m.name, "tie") && !SameLetters(m.name, "draw")
              && !SameLetters(m.name, "both teams to score") && !SameLetters(m.name, "no goal")
              && !SameLetters(m.name, "yes") && !SameLetters(m.name, "no")
  {
    hide Lower, SameLetters;
    LowerIs(m.name, "tie");
    LowerIs(m.name, "draw");
    LowerIs(m.name, "both teams to score");
    LowerIs(m.name, "no goal");
    LowerIs(m.name, "yes");
    LowerIs(m.name, "no");
  }

  /** Of all the names a code is given the shortest, the first one of equals. */
  predicate FirstShortest(markets: seq<Label>, i: nat) {
    && i < |markets| && NamesAClub(markets[i])
    && (forall k :: 0 <= k < |markets| && NamesAClub(markets[k]) && markets[k].code == markets[i].code ==>
          |markets[i].name| <= |markets[k].name| && (k < i ==> |markets[i].name| < |markets[k].name|))
  }

  lemma OneMarketMore(markets: seq<Label>, m: Label, i: nat)
    ensures FirstShortest(markets, i) ==>
              (NamesAClub(m) && m.code == markets[i].code && |m.name| < |markets[i].name|)
              || FirstShortest(markets + [m], i)
    ensures NamesAClub(m) ==>
              (exists k :: 0 <= k < |markets| && NamesAClub(markets[k]) && markets[k].code == m.code
                 && |markets[k].name| <= |m.name|)
              || FirstShortest(markets + [m], |markets|)
  {
    hide NamesAClub;
  }

  method NamesFromMarkets(markets: seq<Label>) returns (names: map<string, string>)
    ensures forall c :: c in names <==> exists m :: m in markets && NamesAClub(m) && m.code == c
    ensures forall c :: c in names ==> exists i: nat :: FirstShortest(markets, i) && markets[i] == Label(c, names[c])
  {
    hide NamesAClub;
    names := map[];
    ghost var at: map<string, nat> := map[];
    var i := 0;
    while i < |markets|
      invariant 0 <= i <= |markets| && at.Keys == names.Keys
      invariant forall k :: 0 <= k < i && NamesAClub(markets[k]) ==> markets[k].code in names
      invariant forall c :: c in names ==> FirstShortest(markets[..i], at[c]) && markets[at[c]] == Label(c, names[c])
    {
      var m := markets[i];
      assert markets[..i + 1] == markets[..i] + [m];
      forall c | c in names
        ensures (NamesAClub(m) && m.code == c && |m.name| < |names[c]|) || FirstShortest(markets[..i + 1], at[c])
      {
        OneMarketMore(markets[..i], m, at[c]);
      }
      if NamesAClub(m) && (m.code !in names || |m.name| < |names[m.code]|) {
        OneMarketMore(markets[..i], m, i);
        names := names[m.code := m.name];
        at := at[m.code := i];
      }
      i := i + 1;
    }
    assert markets[..i] == markets;
    forall c | c in names ensures exists i: nat :: FirstShortest(markets, i) && markets[i] == Label(c, names[c]) {
      assert FirstShortest(markets, at[c]);
    }
  }
}
