/** The notes of a bail-out prompt: `render_state` of `rsi_arena/agent/agent.py`. */
module Notes {
  import opened Prelude
  import opened Sorting

  /** One state entry in insertion order; `blank` marks None, "", [] and {}. */
  datatype Note = Note(key: string, body: string, blank: bool)

  datatype Line = Line(key: string, text: string)

  const HIDDEN: set<string> := {"question", "loop_index", "loop_iteration", "loop_results", "bailout_answer"}

  predicate Visible(n: Note) {
    n.key !in HIDDEN && !n.blank
  }

  /** The visible notes, newest first. */
  function Newest(notes: seq<Note>): seq<Note> {
    if notes == [] then []
    else
      var n, older := notes[|notes| - 1], Newest(notes[..|notes| - 1]);
      if Visible(n) then [n] + older else older
  }

  function Digits(n: nat): string {
    var d := [('0' as int + n % 10) as char];
    if n < 10 then d else Digits(n / 10) + d
  }

  function Dropped(n: nat): string {
    "\n\U{2026} [" + Digits(n) + " more characters dropped]"
  }

  /** Every note is given 200 characters, however little is left. */
  function Room(budget: int, spent: nat): nat {
    if budget - spent >= 200 then budget - spent else 200
  }

  function Fit(body: string, room: nat): string {
    if |body| > room then body[..room] + Dropped(|body| - room) else body
  }

  /** The lines for `vs` when `spent` characters are spent already. */
  function Lines(vs: seq<Note>, budget: int, spent: nat): seq<Line> {
    if vs == [] then []
    else
      var text := Fit(vs[0].body, Room(budget, spent));
      [Line(vs[0].key, text)]
        + if spent + |text| >= budget then [] else Lines(vs[1..], budget, spent + |text|)
  }

  lemma NewestStep(notes: seq<Note>, i: nat)
    requires i < |notes|
    ensures Newest(notes[..i + 1]) ==
            if Visible(notes[i]) then [notes[i]] + Newest(notes[..i]) else Newest(notes[..i])
  {
    assert notes[..i + 1][..i] == notes[..i];
  }

  lemma LinesStep(lines: seq<Line>, n: Note, older: seq<Note>, budget: int, spent: nat)
    ensures var text := Fit(n.body, Room(budget, spent));
            lines + Lines([n] + older, budget, spent) ==
              (lines + [Line(n.key, text)])
                + if spent + |text| >= budget then [] else Lines(older, budget, spent + |text|)
  {
    assert ([n] + older)[1..] == older;
  }

  method RenderState(notes: seq<Note>, budget: int) returns (lines: seq<Line>)
    ensures lines == Lines(Newest(notes), budget, 0)
  {
    hide Dropped, Fit, Room, Newest, Lines;
    ghost var all := Lines(Newest(notes), budget, 0);
    lines := [];
    var spent: nat := 0;
    var i := |notes|;
    assert notes[..i] == notes && [] + all == all;
    while i > 0
      invariant 0 <= i <= |notes|
      invariant lines + Lines(Newest(notes[..i]), budget, spent) == all
    {
      i := i - 1;
      NewestStep(notes, i);
      if Visible(notes[i]) {
        LinesStep(lines, notes[i], Newest(notes[..i]), budget, spent);
        var text := Fit(notes[i].body, Room(budget, spent));
        lines := lines + [Line(notes[i].key, text)];
        spent := spent + |text|;
        if spent >= budget {
          return;
        }
      }
    }
    NothingLeft(notes, budget, spent);
  }

  lemma NothingLeft(notes: seq<Note>, budget: int, spent: nat)
    ensures Lines(Newest(notes[..0]), budget, spent) == []
  {
    assert notes[..0] == [];
  }

  /** The length of whole bodies, nothing dropped. */
  function FullLength(vs: seq<Note>): nat {
    if vs == [] then 0 else |vs[0].body| + FullLength(vs[1..])
  }

  /** What a note may show when the newer ones were shown in full. */
  function RoomFor(vs: seq<Note>, budget: int, spent: nat, k: nat): nat
    requires k <= |vs|
  {
    var left := budget - spent - FullLength(vs[..k]);
    if left >= 200 then left else 200
  }

  /** A body shown in full leaves what it leaves; a cut one leaves nothing. */
  lemma FitIs(body: string, budget: int, spent: nat)
    ensures var text := Fit(body, Room(budget, spent));
            && (spent + |text| < budget <==> spent + |body| < budget)
            && (spent + |text| < budget ==> text == body)
  {
  }

  lemma FirstLine(vs: seq<Note>, budget: int, spent: nat)
    ensures |Lines(vs, budget, spent)| == 0 <==> vs == []
    ensures FullLength(vs[..0]) == 0
    ensures vs != [] ==>
              var line, body, room := Lines(vs, budget, spent)[0], vs[0].body, RoomFor(vs, budget, spent, 0);
              && line.key == vs[0].key
              && (|Lines(vs, budget, spent)| > 1 ==> line.text == body)
              && line.text == if |body| <= room then body
                              else body[..room] + ("\n\U{2026} [" + Digits(|body| - room) + " more characters dropped]")
  {
    hide Digits;
    if vs != [] { FitIs(vs[0].body, budget, spent); }
  }

  /** Behind the first line are the lines of the other notes, if it leaves
      something of the budget. */
  lemma LaterLines(vs: seq<Note>, budget: int, spent: nat, k: nat)
    requires vs != [] && k > 0
    ensures var n, older := |vs[0].body|, Lines(vs[1..], budget, spent + |vs[0].body|);
            && |Lines(vs, budget, spent)| == 1 + (if spent + n < budget then |older| else 0)
            && (spent + n < budget && k <= |older| ==> Lines(vs, budget, spent)[k] == older[k - 1])
            && (k <= |vs| ==> FullLength(vs[..k]) == n + FullLength(vs[1..][..k - 1]))
  {
    hide Fit, Room;
    FitIs(vs[0].body, budget, spent);
    if k <= |vs| { assert vs[..k][0] == vs[0] && vs[..k][1..] == vs[1..][..k - 1]; }
  }

  /** A note is shown exactly when it is the newest, or the newer ones in full
      leave something of the budget; a line follows another only if that one was
      shown in full; and one that is longer than what is left, or than 200
      characters where that is more, is cut there and says how much is gone. */
  lemma {:induction false} ShownExactly(vs: seq<Note>, budget: int, spent: nat, k: nat)
    ensures k < |Lines(vs, budget, spent)| <==>
            k < |vs| && (k == 0 || spent + FullLength(vs[..k]) < budget)
    ensures k < |Lines(vs, budget, spent)| ==>
              var line, body, room := Lines(vs, budget, spent)[k], vs[k].body, RoomFor(vs, budget, spent, k);
              && line.key == vs[k].key
              && (k + 1 < |Lines(vs, budget, spent)| ==> line.text == body)
              && line.text == if |body| <= room then body
                              else body[..room] + ("\n\U{2026} [" + Digits(|body| - room) + " more characters dropped]")
    decreases |vs|
  {
    hide Digits, Lines, FullLength, Fit, Room;
    FirstLine(vs, budget, spent);
    if vs != [] && k > 0 {
      LaterLines(vs, budget, spent, k);
      ShownExactly(vs[1..], budget, spent + |vs[0].body|, k - 1);
    }
  }

  // ---- which notes, in which order ----

  function Backward<T>(xs: seq<T>): seq<T> {
    if xs == [] then [] else [xs[|xs| - 1]] + Backward(xs[..|xs| - 1])
  }

  /** A note with something in it that is not the question, a loop's counter or
      an earlier bail-out. */
  function Counts(): Note -> bool {
    (n: Note) =>
      !n.blank && n.key != "question" && n.key != "loop_index" && n.key != "loop_iteration"
      && n.key != "loop_results" && n.key != "bailout_answer"
  }

  /** The notes that count, from the newest to the oldest. */
  lemma {:induction false} NewestAre(notes: seq<Note>)
    ensures Newest(notes) == Backward(Where(notes, Counts()))
  {
    if notes != [] {
      var init, last := notes[..|notes| - 1], notes[|notes| - 1];
      NewestAre(init);
      var w := Where(init, Counts());
      assert Visible(last) <==> Counts()(last);
      assert (w + [last])[..|w|] == w;
      assert w + [] == w;
    }
  }

  /** The number that is printed reads as what it is. */
  lemma {:induction false} DigitsBack(n: nat)
    ensures Digits(n) != "" && AllDigits(Digits(n)) && ToNat(Digits(n)) == n
  {
    var d := [('0' as int + n % 10) as char];
    if n < 10 {
      assert d[..0] == "";
    } else {
      DigitsBack(n / 10);
      assert Digits(n)[..|Digits(n)| - 1] == Digits(n / 10);
    }
  }

  /** The documentation promises that one enormous value cannot crowd out the
      other notes. It can: the newest note stands alone exactly when there is no
      other or its body alone reaches the budget. */
  lemma NewestCrowdsOut(notes: seq<Note>, budget: int)
    requires Newest(notes) != []
    ensures |Lines(Newest(notes), budget, 0)| == 1 <==>
            |Newest(notes)| == 1 || |Newest(notes)[0].body| >= budget
  {
    var vs := Newest(notes);
    ShownExactly(vs, budget, 0, 0);
    ShownExactly(vs, budget, 0, 1);
    if |vs| > 1 { assert vs[..1][1..] == [] && vs[..1][0] == vs[0]; }
  }
}
