/** The weekly review screen: the projectors that turn the fetched weekly
    arrays into chart points, mood glyphs and messages, and the screen's
    fetch and report handlers. */
module WeeklyReview {
  import opened Common
  import opened Strings
  import opened Session

  datatype ChecklistDay = ChecklistDay(hydrate: bool, meditate: bool, stretchMove: bool)
  /** A day's `mood` field: left out by the backend, sent as `null`, or a
      number. JavaScript's comparisons read `null` as 0 and a missing field
      as NaN, so the two behave differently. */
  datatype MoodField = Missing | Null | Rated(value: int)
  datatype MoodDay = MoodDay(mood: MoodField)

  /** The body of GET /api/weekly; a field the backend leaves out is None. */
  datatype WeeklyData = WeeklyData(
    checklistData: Option<seq<ChecklistDay>>,
    sleepData: Option<seq<SleepRecord>>,
    moodData: Option<seq<MoodDay>>,
    milestones: Option<seq<string>>,
    consistencyPercentage: Option<real>,
    avgSleepHours: Option<real>)

  datatype Point = Point(x: real, y: real)

  /** Horizontal distance between two fetched days on the 300-wide chart. */
  const DayStep: real := 300.0 / 7.0
  /** Horizontal distance between two padding points. */
  const PadStep: real := 50.0
  /** The point padding starts from when there is no point at all. */
  const PadOrigin: Point := Point(50.0, 50.0)

  function Max(a: int, b: int): int { if a < b then b else a }

  // ----- Routine consistency chart -----------------------------------------

  /** `[hydrate, meditate, stretch_move].filter(Boolean).length`. */
  function CompletedTasks(d: ChecklistDay): (n: nat)
    ensures n <= 3
    ensures n == 3 <==> d.hydrate && d.meditate && d.stretchMove
    ensures n == 0 <==> !d.hydrate && !d.meditate && !d.stretchMove
  {
    (if d.hydrate then 1 else 0) + (if d.meditate then 1 else 0) + (if d.stretchMove then 1 else 0)
  }

  /** The SVG y of one day: 100 minus the completion percentage. */
  function ConsistencyY(d: ChecklistDay): real {
    100.0 - (CompletedTasks(d) as real / 3.0) * 100.0
  }

  /** A day's y is one of the four levels 100, 200/3, 100/3 and 0; it is 0
      exactly for a perfect day and 100 exactly for a day with nothing done. */
  lemma ConsistencyLevels(d: ChecklistDay)
    ensures var y := ConsistencyY(d);
      (y == 100.0 || y == 200.0 / 3.0 || y == 100.0 / 3.0 || y == 0.0) && 0.0 <= y <= 100.0
    ensures ConsistencyY(d) == 0.0 <==> d.hydrate && d.meditate && d.stretchMove
    ensures ConsistencyY(d) == 100.0 <==> !d.hydrate && !d.meditate && !d.stretchMove
  {
    var n := CompletedTasks(d);
    assert n == 0 || n == 1 || n == 2 || n == 3;
  }

  // ----- Sleep chart --------------------------------------------------------

  /** `day.total_hours || 0`. */
  function SleepHours(d: SleepRecord): real {
    if d.totalHours.Some? then d.totalHours.value else 0.0
  }

  /** `Math.max(20, Math.min(80, 100 - ((hours - 4) * 10)))`. */
  function SleepY(d: SleepRecord): real {
    var raw := 100.0 - (SleepHours(d) - 4.0) * 10.0;
    var low := if 80.0 < raw then 80.0 else raw;
    if 20.0 < low then low else 20.0
  }

  /** The sleep y always lies in [20, 80]; it is 80 exactly up to 6 hours
      (so also for a missing total) and 20 exactly from 12 hours on, and in
      between it falls by 10 per hour. */
  lemma SleepYBounds(d: SleepRecord)
    ensures 20.0 <= SleepY(d) <= 80.0
    ensures d.totalHours.None? ==> SleepY(d) == 80.0
    ensures SleepY(d) == 80.0 <==> SleepHours(d) <= 6.0
    ensures SleepY(d) == 20.0 <==> SleepHours(d) >= 12.0
    ensures 6.0 <= SleepHours(d) <= 12.0 ==> SleepY(d) == 140.0 - 10.0 * SleepHours(d)
  {
  }

  /** The chart's comment promises "4h = 80, 10h = 20"; the formula gives 80
      for 4 hours, 70 for 7 hours and 40, not 20, for 10 hours. */
  lemma SleepYSamples()
    ensures SleepY(SleepRecord(Some(4.0), None, None)) == 80.0
    ensures SleepY(SleepRecord(Some(7.0), None, None)) == 70.0
    ensures SleepY(SleepRecord(Some(10.0), None, None)) == 40.0
  {
  }

  // ----- Padding to a week --------------------------------------------------

  /** The points from index `n` on are padding: each repeats the y of the
      point before it and lies 50 further right; with no point before it,
      the first one is PadOrigin. */
  predicate PaddedFrom(n: nat, pts: seq<Point>)
    requires n <= |pts|
  {
    && (n == 0 && |pts| > 0 ==> pts[0] == PadOrigin)
    && (forall i :: n <= i < |pts| && 0 < i ==> pts[i] == Point(pts[i - 1].x + PadStep, pts[i - 1].y))
  }

  /** The `while (points.length < 7)` loop shared by both charts: appends a
      point 50 to the right of the last one, with its y, until there are 7;
      with no last point it starts from `[points.length * 50, 50]`. */
  method PadToWeek(points: seq<Point>) returns (padded: seq<Point>)
    ensures |padded| == Max(7, |points|)
    ensures padded[..|points|] == points
    ensures PaddedFrom(|points|, padded)
  {
    padded := points;
    while |padded| < 7
      invariant |points| <= |padded| <= Max(7, |points|)
      invariant padded[..|points|] == points
      invariant PaddedFrom(|points|, padded)
      decreases 7 - |padded|
    {
      var last := if |padded| > 0 then padded[|padded| - 1] else Point(|padded| as real * 50.0, 50.0);
      padded := padded + [Point(last.x + PadStep, last.y)];
    }
  }

  /** What padding leaves: every padding point has the y of the last real
      point (50 when there is none) and lies a whole number of 50-steps to
      the right of it. */
  lemma {:induction false} PaddingRepeatsLast(n: nat, pts: seq<Point>, i: nat)
    requires n <= i < |pts|
    requires PaddedFrom(n, pts)
    ensures n > 0 ==> pts[i] == Point(pts[n - 1].x + (i - n + 1) as real * PadStep, pts[n - 1].y)
    ensures n == 0 ==> pts[i] == Point((i + 1) as real * PadStep, 50.0)
    decreases i
  {
    if i > n {
      PaddingRepeatsLast(n, pts, i - 1);
    } else if i > 0 {
      assert pts[i] == Point(pts[i - 1].x + PadStep, pts[i - 1].y);
    }
  }

  /** The point list of a chart over the values `ys` of the fetched days:
      day `i` sits at x = (300/7)·i with its own y, never truncated, and
      the list is padded to 7 points. */
  predicate IsChartSeries(ys: seq<real>, pts: seq<Point>) {
    && |pts| == Max(7, |ys|)
    && (forall i :: 0 <= i < |ys| ==> pts[i] == Point(DayStep * i as real, ys[i]))
    && PaddedFrom(|ys|, pts)
  }

  /** The y values of the consistency chart, one per fetched day. */
  function ConsistencyValues(days: seq<ChecklistDay>): (ys: seq<real>)
    ensures |ys| == |days|
    ensures forall i :: 0 <= i < |days| ==> ys[i] == ConsistencyY(days[i])
  {
    seq(|days|, i requires 0 <= i < |days| => ConsistencyY(days[i]))
  }

  function SleepValues(days: seq<SleepRecord>): (ys: seq<real>)
    ensures |ys| == |days|
    ensures forall i :: 0 <= i < |days| ==> ys[i] == SleepY(days[i])
  {
    seq(|days|, i requires 0 <= i < |days| => SleepY(days[i]))
  }

  /** The `forEach` + `push` of `getConsistencyChartPoints`, then padding. */
  method ConsistencyPoints(days: seq<ChecklistDay>) returns (points: seq<Point>)
    ensures IsChartSeries(ConsistencyValues(days), points)
  {
    var pts: seq<Point> := [];
    for index := 0 to |days|
      invariant |pts| == index
      invariant forall i :: 0 <= i < index ==> pts[i] == Point(DayStep * i as real, ConsistencyY(days[i]))
    {
      var completed := CompletedTasks(days[index]);
      var percentage := (completed as real / 3.0) * 100.0;
      pts := pts + [Point(DayStep * index as real, 100.0 - percentage)];
    }
    points := PadToWeek(pts);
  }

  /** The `forEach` + `push` of `getSleepChartPoints`, then padding. */
  method SleepPoints(days: seq<SleepRecord>) returns (points: seq<Point>)
    ensures IsChartSeries(SleepValues(days), points)
  {
    var pts: seq<Point> := [];
    for index := 0 to |days|
      invariant |pts| == index
      invariant forall i :: 0 <= i < index ==> pts[i] == Point(DayStep * i as real, SleepY(days[i]))
    {
      var hours := if days[index].totalHours.Some? then days[index].totalHours.value else 0.0;
      var y := Max2(20.0, Min2(80.0, 100.0 - (hours - 4.0) * 10.0));
      pts := pts + [Point(DayStep * index as real, y)];
    }
    points := PadToWeek(pts);
  }

  function Min2(a: real, b: real): real { if a < b then a else b }
  function Max2(a: real, b: real): real { if a < b then b else a }

  /** Every y of a chart series lies in [lo, hi] when every fetched value
      does (and, for an empty week, when the padding level 50 does). */
  lemma SeriesWithin(ys: seq<real>, pts: seq<Point>, lo: real, hi: real)
    requires IsChartSeries(ys, pts)
    requires forall i :: 0 <= i < |ys| ==> lo <= ys[i] <= hi
    requires |ys| == 0 ==> lo <= 50.0 <= hi
    ensures forall i :: 0 <= i < |pts| ==> lo <= pts[i].y <= hi
  {
    forall i | 0 <= i < |pts|
      ensures lo <= pts[i].y <= hi
    {
      if i >= |ys| {
        PaddingRepeatsLast(|ys|, pts, i);
      }
    }
  }

  /** Consistency points have y in [0, 100]; a week shorter than 7 days is
      padded with the last day's y, a longer one is kept whole. */
  lemma ConsistencySeriesProperties(days: seq<ChecklistDay>, pts: seq<Point>)
    requires IsChartSeries(ConsistencyValues(days), pts)
    ensures |pts| == Max(7, |days|)
    ensures forall i :: 0 <= i < |pts| ==> 0.0 <= pts[i].y <= 100.0
    ensures forall i :: 0 < |days| <= i < |pts| ==> pts[i].y == ConsistencyY(days[|days| - 1])
  {
    var ys := ConsistencyValues(days);
    forall i | 0 <= i < |ys| ensures 0.0 <= ys[i] <= 100.0 {
      ConsistencyLevels(days[i]);
    }
    SeriesWithin(ys, pts, 0.0, 100.0);
    forall i | 0 < |days| <= i < |pts|
      ensures pts[i].y == ConsistencyY(days[|days| - 1])
    {
      PaddingRepeatsLast(|days|, pts, i);
    }
  }

  /** Sleep points have y in [20, 80]. */
  lemma SleepSeriesProperties(days: seq<SleepRecord>, pts: seq<Point>)
    requires IsChartSeries(SleepValues(days), pts)
    ensures |pts| == Max(7, |days|)
    ensures forall i :: 0 <= i < |pts| ==> 20.0 <= pts[i].y <= 80.0
    ensures forall i :: 0 < |days| <= i < |pts| ==> pts[i].y == SleepY(days[|days| - 1])
  {
    var ys := SleepValues(days);
    forall i | 0 <= i < |ys| ensures 20.0 <= ys[i] <= 80.0 {
      SleepYBounds(days[i]);
    }
    SeriesWithin(ys, pts, 20.0, 80.0);
    forall i | 0 < |days| <= i < |pts|
      ensures pts[i].y == SleepY(days[|days| - 1])
    {
      PaddingRepeatsLast(|days|, pts, i);
    }
  }

  // ----- Point text: serialise and parse back -------------------------------

  /** `${p[0]},${p[1]}` for every point; `show` is JavaScript's rendering
      of a number as text. */
  function PointTexts(pts: seq<Point>, show: real -> string): (texts: seq<string>)
    ensures |texts| == |pts|
    decreases |pts|
  {
    if |pts| == 0 then [] else [show(pts[0].x) + "," + show(pts[0].y)] + PointTexts(pts[1..], show)
  }

  /** `points.map(p => `${p[0]},${p[1]}`).join(" ")`. */
  function SeriesText(pts: seq<Point>, show: real -> string): string
    requires |pts| > 0
  {
    Join(PointTexts(pts, show), ' ')
  }

  /** `point.split(",").map(Number)` destructured as `[x, y]`; a token
      without a comma has no y. `read` is JavaScript's `Number(text)`. */
  function ParsePoint(token: string, read: string -> real): Option<Point> {
    var fields := Split(token, ',');
    if |fields| >= 2 then Some(Point(read(fields[0]), read(fields[1]))) else None
  }

  function ParseTokens(tokens: seq<string>, read: string -> real): (r: seq<Option<Point>>)
    ensures |r| == |tokens|
    decreases |tokens|
  {
    if |tokens| == 0 then [] else [ParsePoint(tokens[0], read)] + ParseTokens(tokens[1..], read)
  }

  /** The render-time parse: `text.split(" ")`, then each token as above. */
  function ParseSeries(text: string, read: string -> real): seq<Option<Point>> {
    ParseTokens(Split(text, ' '), read)
  }

  /** The rendering of `r` can travel in the chart text: it holds no space
      or comma, and `Number` reads it back as `r`. */
  ghost predicate ReadableAt(show: real -> string, read: string -> real, r: real) {
    ' ' !in show(r) && ',' !in show(r) && read(show(r)) == r
  }

  /** Every coordinate of the series is rendered readably. */
  ghost predicate PointsReadable(pts: seq<Point>, show: real -> string, read: string -> real) {
    forall i :: 0 <= i < |pts| ==> ReadableAt(show, read, pts[i].x) && ReadableAt(show, read, pts[i].y)
  }

  lemma {:induction false} PointTextsParse(pts: seq<Point>, show: real -> string, read: string -> real)
    requires PointsReadable(pts, show, read)
    ensures forall i :: 0 <= i < |pts| ==> ' ' !in PointTexts(pts, show)[i]
    ensures ParseTokens(PointTexts(pts, show), read) == seq(|pts|, i requires 0 <= i < |pts| => Some(pts[i]))
    decreases |pts|
  {
    if |pts| > 0 {
      assert ReadableAt(show, read, pts[0].x) && ReadableAt(show, read, pts[0].y);
      forall i | 0 <= i < |pts[1..]|
        ensures ReadableAt(show, read, pts[1..][i].x) && ReadableAt(show, read, pts[1..][i].y)
      {
        assert pts[1..][i] == pts[i + 1];
      }
      PointTextsParse(pts[1..], show, read);
      var a, b := show(pts[0].x), show(pts[0].y);
      var t := a + "," + b;
      assert t == a + [','] + b;
      SplitAfterPart(a, b, ',');
      SplitWithoutSeparator(b, ',');
      assert ParsePoint(t, read) == Some(pts[0]);
      var texts := PointTexts(pts, show);
      assert texts[1..] == PointTexts(pts[1..], show);
      forall i | 0 <= i < |pts| ensures ' ' !in texts[i] {
        if i > 0 {
          assert texts[i] == PointTexts(pts[1..], show)[i - 1];
        }
      }
    }
  }

  /** Parsing the chart text at render time gives back every point, in
      order, with both coordinates. */
  lemma SeriesTextRoundTrip(pts: seq<Point>, show: real -> string, read: string -> real)
    requires |pts| > 0
    requires PointsReadable(pts, show, read)
    ensures ParseSeries(SeriesText(pts, show), read) == seq(|pts|, i requires 0 <= i < |pts| => Some(pts[i]))
  {
    PointTextsParse(pts, show, read);
    SplitJoin(PointTexts(pts, show), ' ');
  }

  /** A rendering that writes 0 and 1 as digits meets the requires of the
      round trip, so the chart text of the points (0, 1) and (1, 0) parses
      back to them. */
  lemma DigitRenderingRoundTrip()
    ensures var show := (r: real) => if r == 0.0 then "0" else "1";
      var read := (t: string) => if t == "0" then 0.0 else 1.0;
      ParseSeries(SeriesText([Point(0.0, 1.0), Point(1.0, 0.0)], show), read) ==
        [Some(Point(0.0, 1.0)), Some(Point(1.0, 0.0))]
  {
    var show := (r: real) => if r == 0.0 then "0" else "1";
    var read := (t: string) => if t == "0" then 0.0 else 1.0;
    var pts := [Point(0.0, 1.0), Point(1.0, 0.0)];
    assert PointsReadable(pts, show, read);
    SeriesTextRoundTrip(pts, show, read);
  }

  // ----- The chart texts the screen renders ---------------------------------

  const DefaultConsistencyText := "0,80 50,55 100,65 150,30 200,50 250,75 300,90"
  const DefaultSleepText := "0,60 50,50 100,55 150,40 200,45 250,50 300,52"

  predicate HasChecklist(data: Option<WeeklyData>) {
    data.Some? && data.value.checklistData.Some? && |data.value.checklistData.value| > 0
  }

  predicate HasSleep(data: Option<WeeklyData>) {
    data.Some? && data.value.sleepData.Some? && |data.value.sleepData.value| > 0
  }

  predicate HasMoods(data: Option<WeeklyData>) {
    data.Some? && data.value.moodData.Some? && |data.value.moodData.value| > 0
  }

  /** `getConsistencyChartPoints`: the placeholder text without checklist
      data, otherwise the text of the consistency series. */
  method ConsistencyChartText(data: Option<WeeklyData>, show: real -> string) returns (text: string)
    ensures !HasChecklist(data) ==> text == DefaultConsistencyText
    ensures HasChecklist(data) ==>
      exists pts :: IsChartSeries(ConsistencyValues(data.value.checklistData.value), pts) && |pts| > 0 &&
                    text == SeriesText(pts, show)
  {
    if !HasChecklist(data) {
      return DefaultConsistencyText;
    }
    var points := ConsistencyPoints(data.value.checklistData.value);
    text := SeriesText(points, show);
  }

  /** `getSleepChartPoints`. */
  method SleepChartText(data: Option<WeeklyData>, show: real -> string) returns (text: string)
    ensures !HasSleep(data) ==> text == DefaultSleepText
    ensures HasSleep(data) ==>
      exists pts :: IsChartSeries(SleepValues(data.value.sleepData.value), pts) && |pts| > 0 &&
                    text == SeriesText(pts, show)
  {
    if !HasSleep(data) {
      return DefaultSleepText;
    }
    var points := SleepPoints(data.value.sleepData.value);
    text := SeriesText(points, show);
  }

  // ----- Mood calendar ------------------------------------------------------

  const VeryHappy := "\U{1F600}"
  const Happy := "\U{1F642}"
  const Neutral := "\U{1F610}"
  const Sad := "\U{1F614}"
  const VerySad := "\U{1F622}"
  const DefaultMoodGlyphs := ["\U{1F642}", "\U{1F60A}", "\U{1F610}", "\U{1F60A}", "\U{1F634}", "\U{1F642}", "\U{1F60A}"]

  /** `moodEmojis[day.mood] || "😐"`. */
  function MoodGlyph(mood: MoodField): (g: string)
    ensures g == Neutral <==> !mood.Rated? || !(1 <= mood.value <= 5) || mood.value == 3
    ensures g in {VeryHappy, Happy, Neutral, Sad, VerySad}
  {
    match mood
    case Rated(1) => VeryHappy
    case Rated(2) => Happy
    case Rated(3) => Neutral
    case Rated(4) => Sad
    case Rated(5) => VerySad
    case _ => Neutral
  }

  /** `getMoodEmojis`: one glyph per fetched day, padded with the neutral
      glyph, cut to 7. */
  method MoodEmojis(data: Option<WeeklyData>) returns (glyphs: seq<string>)
    ensures !HasMoods(data) ==> glyphs == DefaultMoodGlyphs
    ensures |glyphs| == 7
    ensures HasMoods(data) ==> forall i :: 0 <= i < 7 ==>
      glyphs[i] == (if i < |data.value.moodData.value| then MoodGlyph(data.value.moodData.value[i].mood) else Neutral)
  {
    if !HasMoods(data) {
      return DefaultMoodGlyphs;
    }
    var days := data.value.moodData.value;
    var moods := seq(|days|, i requires 0 <= i < |days| => MoodGlyph(days[i].mood));
    while |moods| < 7
      invariant |days| <= |moods| <= Max(7, |days|)
      invariant forall i :: 0 <= i < |moods| ==> moods[i] == (if i < |days| then MoodGlyph(days[i].mood) else Neutral)
      decreases 7 - |moods|
    {
      moods := moods + [Neutral];
    }
    glyphs := moods[..7];
  }

  // ----- Milestones -----------------------------------------------------------

  const Trophy := "\U{1F3C6}"
  const Fire := "\U{1F525}"
  const Droplet := "\U{1F4A7}"
  const Meditator := "\U{1F9D8}"

  predicate IsZen(m: string) { Contains(m, "Zen") || Contains(m, "meditation") }

  /** The emoji of a milestone: three `if`s in a row, so the last test that
      matches decides. */
  function MilestoneEmoji(m: string): (e: string)
    ensures e == Meditator <==> IsZen(m)
    ensures e == Droplet <==> !IsZen(m) && Contains(m, "Hydration")
    ensures e == Fire <==> !IsZen(m) && !Contains(m, "Hydration") && Contains(m, "Streak")
    ensures e == Trophy <==> !IsZen(m) && !Contains(m, "Hydration") && !Contains(m, "Streak")
  {
    var e0 := Trophy;
    var e1 := if Contains(m, "Streak") then Fire else e0;
    var e2 := if Contains(m, "Hydration") then Droplet else e1;
    if IsZen(m) then Meditator else e2
  }

  const StreakNote := "Keep up the great work!"
  const HydrationNote := "Excellent hydration habits!"
  const MindfulnessNote := "Consistent mindfulness practice!"

  /** The note under a milestone: a conditional chain, so the first test
      that matches decides. */
  function MilestoneNote(m: string): (note: string)
    ensures note == StreakNote <==> Contains(m, "Streak")
    ensures note == HydrationNote <==> !Contains(m, "Streak") && Contains(m, "Hydration")
    ensures note == MindfulnessNote <==> !Contains(m, "Streak") && !Contains(m, "Hydration")
  {
    if Contains(m, "Streak") then StreakNote
    else if Contains(m, "Hydration") then HydrationNote
    else MindfulnessNote
  }

  /** The two classifiers test in opposite orders: a "Hydration Streak"
      milestone gets the hydration emoji but the streak note. */
  lemma EmojiAndNoteDisagree(m: string)
    requires m == "Hydration Streak"
    ensures Contains(m, "Hydration") && Contains(m, "Streak") && !IsZen(m)
    ensures MilestoneEmoji(m) == Droplet
    ensures MilestoneNote(m) == StreakNote
  {
    assert OccursAt(m, "Hydration", 0);
    assert m[10..16] == "Streak";
    assert OccursAt(m, "Streak", 10);
    ContainsIffOccurs(m, "Hydration");
    ContainsIffOccurs(m, "Streak");
    NotContainedWithoutFirstChar(m, "Zen");
    NotContainedWithoutFirstChar(m, "meditation");
  }

  datatype MilestoneCard = MilestoneCard(emoji: string, title: string, note: string)

  const PlaceholderCards := [
    MilestoneCard(Fire, "No milestones yet", "Complete more daily routines to earn milestones"),
    MilestoneCard(Droplet, "7 Day Streak", "Complete your routine for 7 consecutive days"),
    MilestoneCard(Meditator, "Perfect Hydration Week", "Hydrate every day for a week")]

  /** The milestone cards: one per backend milestone, or three placeholders. */
  function MilestoneCards(data: Option<WeeklyData>): (cards: seq<MilestoneCard>)
    ensures (data.Some? && data.value.milestones.Some? && |data.value.milestones.value| > 0) ==>
      |cards| == |data.value.milestones.value| &&
      forall i :: 0 <= i < |cards| ==>
        var m := data.value.milestones.value[i];
        cards[i].title == m && cards[i].emoji == MilestoneEmoji(m) && cards[i].note == MilestoneNote(m)
    ensures !(data.Some? && data.value.milestones.Some? && |data.value.milestones.value| > 0) ==>
      cards == PlaceholderCards
  {
    if data.Some? && data.value.milestones.Some? && |data.value.milestones.value| > 0 then
      var ms := data.value.milestones.value;
      seq(|ms|, i requires 0 <= i < |ms| => MilestoneCard(MilestoneEmoji(ms[i]), ms[i], MilestoneNote(ms[i])))
    else PlaceholderCards
  }

  // ----- Mood message and perfect days ----------------------------------------

  /** `s.filter(p).length`. */
  function Count<T>(s: seq<T>, p: T -> bool): (n: nat)
    ensures n <= |s|
    decreases |s|
  {
    if |s| == 0 then 0 else (if p(s[0]) then 1 else 0) + Count(s[1..], p)
  }

  /** Two tests no element passes together count at most the whole list. */
  lemma {:induction false} CountDisjoint<T>(s: seq<T>, p: T -> bool, q: T -> bool)
    requires forall x :: !(p(x) && q(x))
    ensures Count(s, p) + Count(s, q) <= |s|
    decreases |s|
  {
    if |s| > 0 {
      CountDisjoint(s[1..], p, q);
    }
  }

  /** `m.mood <= 2`: a missing mood compares false, `null` compares as 0. */
  predicate IsGoodMood(d: MoodDay) { d.mood.Null? || (d.mood.Rated? && d.mood.value <= 2) }
  /** `m.mood >= 4`: false for a missing mood and for `null`. */
  predicate IsLowMood(d: MoodDay) { d.mood.Rated? && d.mood.value >= 4 }

  const GreatWeek := "You've been feeling great most days this week! Keep up the positive mindset. \U{1F31F}"
  const ToughWeek := "You've had some tough days. Remember to practice self-care and reach out if you need support. \U{1F49D}"
  const StableWeek := "Your mood has been relatively stable this week. Consistency is key to wellbeing. \U{1F308}"
  const TrackPrompt := "\"Track your daily mood to see patterns and insights about your wellbeing.\""

  /** The mood-calendar message: the good-days test comes first. */
  function MoodMessage(data: Option<WeeklyData>): (msg: string)
    ensures !HasMoods(data) ==> msg == TrackPrompt
    ensures HasMoods(data) ==> var days := data.value.moodData.value;
      (msg == GreatWeek <==> Count(days, IsGoodMood) >= 5) &&
      (msg == ToughWeek <==> Count(days, IsGoodMood) < 5 && Count(days, IsLowMood) >= 3) &&
      (msg == StableWeek <==> Count(days, IsGoodMood) < 5 && Count(days, IsLowMood) < 3)
  {
    if !HasMoods(data) then TrackPrompt
    else
      var days := data.value.moodData.value;
      if Count(days, IsGoodMood) >= 5 then GreatWeek
      else if Count(days, IsLowMood) >= 3 then ToughWeek
      else StableWeek
  }

  /** Within one week (at most 7 entries) the two tests never both hold,
      so their order only matters for longer lists. */
  lemma MoodTestsExclusiveInAWeek(days: seq<MoodDay>)
    requires |days| <= 7
    ensures !(Count(days, IsGoodMood) >= 5 && Count(days, IsLowMood) >= 3)
  {
    CountDisjoint(days, IsGoodMood, IsLowMood);
  }
  /** A list of one repeated entry: the test counts every entry or none. */
  lemma {:induction false} CountUniform<T>(d: T, n: nat, p: T -> bool)
    ensures Count(seq(n, _ => d), p) == if p(d) then n else 0
  {
    if n > 0 {
      assert seq(n, _ => d)[1..] == seq(n - 1, _ => d);
      CountUniform(d, n - 1, p);
    }
  }

  /** Five days sent with `mood: null` make a great week, since `null <= 2`
      holds; five days without the field are a stable one. */
  lemma NullMoodsCountAsGood()
    ensures MoodMessage(Some(WeeklyData(None, None, Some(seq(5, _ => MoodDay(Null))), None, None, None))) == GreatWeek
    ensures MoodMessage(Some(WeeklyData(None, None, Some(seq(5, _ => MoodDay(Missing))), None, None, None))) == StableWeek
  {
    CountUniform(MoodDay(Null), 5, IsGoodMood);
    CountUniform(MoodDay(Missing), 5, IsGoodMood);
    CountUniform(MoodDay(Missing), 5, IsLowMood);
  }


  predicate IsPerfectDay(d: ChecklistDay) { d.hydrate && d.meditate && d.stretchMove }

  /** The "perfect days" count never exceeds the number of checklist days,
      and it counts exactly the days whose consistency y is 0. */
  lemma {:induction false} PerfectDaysBound(days: seq<ChecklistDay>)
    ensures Count(days, IsPerfectDay) <= |days|
    ensures Count(days, IsPerfectDay) == Count(ConsistencyValues(days), (y: real) => y == 0.0)
    decreases |days|
  {
    if |days| > 0 {
      PerfectDaysBound(days[1..]);
      ConsistencyLevels(days[0]);
      assert ConsistencyValues(days)[1..] == ConsistencyValues(days[1..]);
    }
  }

  // ----- Tips ------------------------------------------------------------------

  const ExcellentConsistency := "Excellent consistency! Try adding one new small habit to your routine."
  const GoodConsistency := "Good progress! Focus on completing all 3 tasks for the next 3 days."
  const StartConsistency := "Start by focusing on just one task consistently, then build from there."

  /** `weeklyData?.consistencyPercentage >= 80 ? … : … >= 60 ? … : …`. */
  function ConsistencyTip(data: Option<WeeklyData>): (tip: string)
    ensures tip == ExcellentConsistency <==>
      data.Some? && data.value.consistencyPercentage.Some? && data.value.consistencyPercentage.value >= 80.0
    ensures tip == GoodConsistency <==>
      data.Some? && data.value.consistencyPercentage.Some? && 60.0 <= data.value.consistencyPercentage.value < 80.0
    ensures tip == StartConsistency <==>
      !(data.Some? && data.value.consistencyPercentage.Some? && data.value.consistencyPercentage.value >= 60.0)
  {
    var p := if data.Some? then data.value.consistencyPercentage else None;
    if p.Some? && p.value >= 80.0 then ExcellentConsistency
    else if p.Some? && p.value >= 60.0 then GoodConsistency
    else StartConsistency
  }

  const GreatSleep := "Great sleep duration! Maintain this for optimal health and energy."
  const GoodSleep := "Good sleep habits. Aim for 7-9 hours consistently."
  const EarlierSleep := "Try going to bed 30 minutes earlier to improve your sleep duration."

  /** `weeklyData?.avgSleepHours >= 8 ? … : … >= 7 ? … : …`. */
  function SleepTip(data: Option<WeeklyData>): (tip: string)
    ensures tip == GreatSleep <==>
      data.Some? && data.value.avgSleepHours.Some? && data.value.avgSleepHours.value >= 8.0
    ensures tip == GoodSleep <==>
      data.Some? && data.value.avgSleepHours.Some? && 7.0 <= data.value.avgSleepHours.value < 8.0
    ensures tip == EarlierSleep <==>
      !(data.Some? && data.value.avgSleepHours.Some? && data.value.avgSleepHours.value >= 7.0)
  {
    var h := if data.Some? then data.value.avgSleepHours else None;
    if h.Some? && h.value >= 8.0 then GreatSleep
    else if h.Some? && h.value >= 7.0 then GoodSleep
    else EarlierSleep
  }

  /** What POST /api/weekly/generate-report answers. */
  datatype ReportResult = ReportResult(message: Option<string>)

  // ----- The screen --------------------------------------------------------------

  /** The WeeklyReview component: its state hooks, and the session storage. */
  class WeeklyReviewView {
    var weeklyData: Option<WeeklyData>
    var loading: bool
    var generatingReport: bool
    const storage: LocalStorage

    constructor (storage: LocalStorage)
      ensures this.storage == storage
      ensures weeklyData.None? && loading && !generatingReport
    {
      this.storage := storage;
      weeklyData := None;
      loading := true;
      generatingReport := false;
    }

    /** `fetchWeeklyData`: without a token nothing is fetched; a 401 clears
      the session; a failure whose message mentions "401" clears all of the
      storage; a decoded body replaces the data; loading ends either way. */
    method FetchWeeklyData(reply: Reply<WeeklyData>)
      modifies this, storage
      ensures !loading && generatingReport == old(generatingReport)
      ensures var token := Present(old(storage.items), TokenKey);
        && (weeklyData == if token && IsOk(reply) && reply.body.Parsed? then Some(reply.body.value) else old(weeklyData))
        && (storage.items ==
              if !token then old(storage.items)
              else if IsUnauthorized(reply) then WithoutSession(old(storage.items))
              else if IsOk(reply) && reply.body.Parsed? then old(storage.items)
              else if Contains(FailureMessage(reply), "401") then map[]
              else old(storage.items))
    {
      loading := true;
      var token := HasToken(storage);
      if !token {
        loading := false;
        return;
      }
      if IsUnauthorized(reply) {
        ClearSession(storage);
        loading := false;
        return;
      }
      if !IsOk(reply) || reply.body.Unparsable? {
        if Contains(FailureMessage(reply), "401") {
          storage.Clear();
        }
        loading := false;
        return;
      }
      weeklyData := Some(reply.body.value);
      loading := false;
    }

    /** `handleGenerateReport`: a 401 clears the session; success refreshes
      the weekly data with `refresh`; the button is enabled again either way. */
    method GenerateReport(reply: Reply<ReportResult>, refresh: Reply<WeeklyData>)
      modifies this, storage
      ensures !generatingReport
      ensures var token := Present(old(storage.items), TokenKey);
        && (!token ==> weeklyData == old(weeklyData) && storage.items == old(storage.items) && loading == old(loading))
        && (token && IsUnauthorized(reply) ==>
              weeklyData == old(weeklyData) && storage.items == WithoutSession(old(storage.items)) &&
              loading == old(loading))
        && (token && !IsUnauthorized(reply) && !(IsOk(reply) && reply.body.Parsed?) ==>
              weeklyData == old(weeklyData) && storage.items == old(storage.items) && loading == old(loading))
        && (token && IsOk(reply) && reply.body.Parsed? ==>
              !loading &&
              weeklyData == (if IsOk(refresh) && refresh.body.Parsed? then Some(refresh.body.value) else old(weeklyData)) &&
              storage.items ==
                (if IsUnauthorized(refresh) then WithoutSession(old(storage.items))
                 else if IsOk(refresh) && refresh.body.Parsed? then old(storage.items)
                 else if Contains(FailureMessage(refresh), "401") then map[]
                 else old(storage.items)))
    {
      generatingReport := true;
      var token := HasToken(storage);
      if !token {
        generatingReport := false;
        return;
      }
      if IsUnauthorized(reply) {
        ClearSession(storage);
        generatingReport := false;
        return;
      }
      if !IsOk(reply) || reply.body.Unparsable? {
        generatingReport := false;
        return;
      }
      FetchWeeklyData(refresh);
      generatingReport := false;
    }
  }
}
