/** The local part of the AI insights panel (src/components/AIInsightsPanel.tsx): the risk
    score computed from the active layers and their counts, and the list of insight lines
    with its four-line display. */
module AiInsights {
  import opened JsRuntime
  import opened App

  /** `Math.min(max, Math.max(min, value))`. */
  function Clamp(value: real, min: real, max: real): (r: real)
    ensures min <= max ==> min <= r <= max
    ensures min <= value <= max ==> r == value
    ensures r == value || r == min || r == max
  {
    var low := if min > value then min else value;
    if max < low then max else low
  }

  function Min(a: real, b: real): real {
    if a <= b then a else b
  }

  /** `Math.round`: the nearest integer, halves rounded up. */
  function Round(x: real): (n: int)
    ensures x - 0.5 < n as real <= x + 0.5
  {
    (x + 0.5).Floor
  }

  /** `layerCounts[key] || 0`: a missing count is zero. */
  function Count(layerCounts: map<string, int>, key: string): (n: int)
    ensures key in layerCounts ==> n == layerCounts[key]
    ensures key !in layerCounts ==> n == 0
  {
    if key in layerCounts then layerCounts[key] else 0
  }

  /** The six counts the panel reads from the layer counts. */
  datatype FeedCounts = FeedCounts(flights: int, military: int, quakes: int,
                                   satellites: int, traffic: int, cctv: int)

  /** The counts of the six layers, zero where the map has none. */
  function ReadCounts(layerCounts: map<string, int>): (c: FeedCounts)
    ensures c.flights == Count(layerCounts, "flights") && c.military == Count(layerCounts, "military")
    ensures c.quakes == Count(layerCounts, "earthquakes") && c.satellites == Count(layerCounts, "satellites")
    ensures c.traffic == Count(layerCounts, "traffic") && c.cctv == Count(layerCounts, "cctv")
    ensures layerCounts == map[] ==> c == FeedCounts(0, 0, 0, 0, 0, 0)
  {
    FeedCounts(Count(layerCounts, "flights"), Count(layerCounts, "military"),
               Count(layerCounts, "earthquakes"), Count(layerCounts, "satellites"),
               Count(layerCounts, "traffic"), Count(layerCounts, "cctv"))
  }

  /** The flights term: one point per 40 tracks, at most 40, nothing when the layer is off. */
  function FlightsTerm(layers: Layers, counts: FeedCounts): (t: real)
    ensures !layers.flights ==> t == 0.0
    ensures t <= 40.0
    ensures counts.flights >= 0 ==> t >= 0.0
  {
    if layers.flights then Min(40.0, counts.flights as real / 40.0) else 0.0
  }

  /** The military term: one point per 2 aircraft, at most 25. */
  function MilitaryTerm(layers: Layers, counts: FeedCounts): (t: real)
    ensures !layers.military ==> t == 0.0
    ensures t <= 25.0
    ensures counts.military >= 0 ==> t >= 0.0
  {
    if layers.military then Min(25.0, counts.military as real / 2.0) else 0.0
  }

  /** The earthquake term: 1.2 points per event, at most 20. */
  function QuakesTerm(layers: Layers, counts: FeedCounts): (t: real)
    ensures !layers.earthquakes ==> t == 0.0
    ensures t <= 20.0
    ensures counts.quakes >= 0 ==> t >= 0.0
  {
    if layers.earthquakes then Min(20.0, counts.quakes as real * 1.2) else 0.0
  }

  /** The raw score before clamping. */
  function ScoreRaw(layers: Layers, counts: FeedCounts, detectMode: bool): real {
    FlightsTerm(layers, counts) + MilitaryTerm(layers, counts) + QuakesTerm(layers, counts)
    + (if detectMode then 10.0 else 0.0) + (if layers.cctv then 5.0 else 0.0)
  }

  /** The displayed risk score: always an integer from 0 to 100. */
  function RiskScore(layers: Layers, counts: FeedCounts, detectMode: bool): (r: int)
    ensures 0 <= r <= 100
  {
    Round(Clamp(ScoreRaw(layers, counts, detectMode), 0.0, 100.0))
  }

  /** With non-negative counts the raw score already lies in [0, 100], so the clamp never
      acts and the score is the raw score rounded. */
  lemma ScoreWithinRange(layers: Layers, counts: FeedCounts, detectMode: bool)
    requires counts.flights >= 0 && counts.military >= 0 && counts.quakes >= 0
    ensures 0.0 <= ScoreRaw(layers, counts, detectMode) <= 100.0
    ensures RiskScore(layers, counts, detectMode) == Round(ScoreRaw(layers, counts, detectMode))
  {
  }

  /** Detection mode adds exactly 10 to the raw score and CCTV exactly 5. */
  lemma FixedBonuses(layers: Layers, counts: FeedCounts)
    ensures ScoreRaw(layers, counts, true) == ScoreRaw(layers, counts, false) + 10.0
    ensures ScoreRaw(layers.Set(Cctv, true), counts, false) == ScoreRaw(layers.Set(Cctv, false), counts, false) + 5.0
  {
    var on := layers.Set(Cctv, true);
    var off := layers.Set(Cctv, false);
    assert on.flights == off.flights && on.military == off.military && on.earthquakes == off.earthquakes by {
      assert on.Get(Flights) == off.Get(Flights) && on.Get(Military) == off.Get(Military);
      assert on.Get(Earthquakes) == off.Get(Earthquakes);
    }
    assert on.cctv && !off.cctv by {
      assert on.Get(Cctv) && !off.Get(Cctv);
    }
  }

  /** Missing counts are zero: without flights, military or earthquakes counts only the
      fixed bonuses score, whatever else the map holds. */
  lemma MissingCountsScoreZero(layerCounts: map<string, int>, layers: Layers, detectMode: bool)
    requires "flights" !in layerCounts && "military" !in layerCounts && "earthquakes" !in layerCounts
    ensures RiskScore(layers, ReadCounts(layerCounts), detectMode)
      == (if detectMode then 10 else 0) + (if layers.cctv then 5 else 0)
  {
    var raw := ScoreRaw(layers, ReadCounts(layerCounts), detectMode);
    assert raw == (if detectMode then 10.0 else 0.0) + (if layers.cctv then 5.0 else 0.0);
    assert Clamp(raw, 0.0, 100.0) == raw;
  }

  /** Every layer on, detection on and counts at or above the caps give the maximum of 100. */
  lemma MaximumScore(counts: FeedCounts)
    requires counts.flights >= 1600 && counts.military >= 50
    requires counts.quakes >= 17
    ensures RiskScore(Layers(true, true, true, true, true, true), counts, true) == 100
  {
    var all := Layers(true, true, true, true, true, true);
    assert FlightsTerm(all, counts) == 40.0;
    assert MilitaryTerm(all, counts) == 25.0;
    assert QuakesTerm(all, counts) == 20.0;
  }

  // ---------------------------------------------------------------- insight lines

  /** How `Number.prototype.toLocaleString` writes a count. */
  type LocaleText = int -> string

  /** The insight lines, by the feed they report on and the count they quote. */
  datatype Insight =
    | AirTraffic(tracks: int)
    | MilitaryActivity(aircraft: int)
    | SeismicFeed(events: int)
    | OrbitalContext(satellites: int)
    | GroundMobility(particles: int)
    | VisualVerification(cameras: int)
    | DetectionMode
    | NoFeeds

  /** The text of a line. */
  function Text(i: Insight, locale: LocaleText): string {
    match i
    case AirTraffic(n) => "Air traffic monitored: " + locale(n) + " tracks in view."
    case MilitaryActivity(n) => "Military activity flagged: " + IntToString(n) + " aircraft patterns tagged."
    case SeismicFeed(n) => "Seismic feed active: " + IntToString(n) + " recent events under review."
    case OrbitalContext(n) => "Orbital context online: " + IntToString(n) + " satellites contributing coverage."
    case GroundMobility(n) => "Ground mobility model running with " + IntToString(n) + " traffic particles."
    case VisualVerification(n) => "Visual verification available from " + IntToString(n) + " camera points."
    case DetectionMode => "Detection mode enabled: " + "labels and projected paths enrich context."
    case NoFeeds => "No active intelligence feeds. " + "Enable one or more layers to generate AI summaries."
  }

  /** Only the no-feeds line starts with 'N', so no other line has its text. */
  lemma TextDistinguishesNoFeeds(i: Insight, locale: LocaleText)
    ensures Text(i, locale) != Text(NoFeeds, locale) <==> i != NoFeeds
  {
    var t := Text(i, locale);
    assert Text(NoFeeds, locale)[0] == 'N';
    match i
    case AirTraffic(n) => assert t[0] == 'A';
    case MilitaryActivity(n) => assert t[0] == 'M';
    case SeismicFeed(n) => assert t[0] == 'S';
    case OrbitalContext(n) => assert t[0] == 'O';
    case GroundMobility(n) => assert t[0] == 'G';
    case VisualVerification(n) => assert t[0] == 'V';
    case DetectionMode => assert t[0] == 'D';
    case NoFeeds =>
  }

  /** The texts of a list of lines. */
  function Render(lines: seq<Insight>, locale: LocaleText): (r: seq<string>)
    ensures |r| == |lines|
    ensures forall k :: 0 <= k < |lines| ==> r[k] == Text(lines[k], locale)
  {
    if lines == [] then [] else [Text(lines[0], locale)] + Render(lines[1..], locale)
  }

  /** A candidate line with the flag that enables it. */
  type Candidate = (bool, Insight)

  /** The enabled lines of the candidates, in order (`if (flag) insights.push(line)` for
      each candidate in turn). */
  function Select(c: seq<Candidate>): seq<Insight> {
    if c == [] then []
    else
      var last := c[|c| - 1];
      Select(c[..|c| - 1]) + (if last.0 then [last.1] else [])
  }

  /** The number of enabled candidates. */
  function Enabled(c: seq<Candidate>): nat {
    if c == [] then 0 else Enabled(c[..|c| - 1]) + (if c[|c| - 1].0 then 1 else 0)
  }

  /** The selection has one line per enabled candidate, each taken from an enabled
      candidate; it is empty exactly when no candidate is enabled. */
  lemma {:induction false} SelectShape(c: seq<Candidate>)
    ensures |Select(c)| == Enabled(c)
    ensures forall x :: x in Select(c) ==> exists k :: 0 <= k < |c| && c[k].0 && c[k].1 == x
    ensures Enabled(c) == 0 <==> forall k :: 0 <= k < |c| ==> !c[k].0
  {
    if c != [] {
      var init := c[..|c| - 1];
      SelectShape(init);
      forall x | x in Select(c)
        ensures exists k :: 0 <= k < |c| && c[k].0 && c[k].1 == x
      {
        if x in Select(init) {
          var k :| 0 <= k < |init| && init[k].0 && init[k].1 == x;
          assert c[k] == init[k];
        } else {
          assert c[|c| - 1].0 && c[|c| - 1].1 == x;
        }
      }
      if Enabled(c) == 0 {
        forall k | 0 <= k < |c|
          ensures !c[k].0
        {
          if k < |init| {
            assert c[k] == init[k];
          }
        }
      }
      if forall k :: 0 <= k < |c| ==> !c[k].0 {
        assert forall k :: 0 <= k < |init| ==> init[k] == c[k];
      }
    }
  }

  /** The seven feeds in their fixed order: flights, military, earthquakes, satellites,
      traffic, CCTV, then detection mode. */
  function Candidates(layers: Layers, counts: FeedCounts, detectMode: bool): (c: seq<Candidate>)
    ensures |c| == 7
  {
    [ (layers.flights, AirTraffic(counts.flights)),
      (layers.military, MilitaryActivity(counts.military)),
      (layers.earthquakes, SeismicFeed(counts.quakes)),
      (layers.satellites, OrbitalContext(counts.satellites)),
      (layers.traffic, GroundMobility(counts.traffic)),
      (layers.cctv, VisualVerification(counts.cctv)),
      (detectMode, DetectionMode) ]
  }

  /** The insight list: the enabled lines, or the single no-feeds line when there are none. */
  function InsightList(layers: Layers, counts: FeedCounts, detectMode: bool): seq<Insight> {
    var lines := Select(Candidates(layers, counts, detectMode));
    if lines == [] then [NoFeeds] else lines
  }

  /** Nothing is active: every layer off and detection mode off. */
  predicate NothingActive(layers: Layers, detectMode: bool) {
    !layers.flights && !layers.military && !layers.earthquakes && !layers.satellites
    && !layers.traffic && !layers.cctv && !detectMode
  }

  /** `if (flag) insights.push(line)`: pushing after the candidates seen so far keeps the
      lines equal to their selection. */
  method Push(lines: seq<Insight>, ghost seen: seq<Candidate>, candidate: Candidate)
    returns (r: seq<Insight>, ghost seen': seq<Candidate>)
    requires lines == Select(seen)
    ensures r == lines + (if candidate.0 then [candidate.1] else [])
    ensures seen' == seen + [candidate] && r == Select(seen')
  {
    r := lines;
    if candidate.0 {
      r := r + [candidate.1];
    }
    seen' := seen + [candidate];
    assert seen'[..|seen'| - 1] == seen;
  }

  /** The pushes of `localInsights`, one per feed in the fixed order: the lines of the
      enabled feeds. */
  method PushActiveFeeds(layers: Layers, counts: FeedCounts, detectMode: bool)
    returns (lines: seq<Insight>)
    ensures lines == Select(Candidates(layers, counts, detectMode))
  {
    lines := [];
    ghost var seen: seq<Candidate> := [];
    lines, seen := Push(lines, seen, (layers.flights, AirTraffic(counts.flights)));
    lines, seen := Push(lines, seen, (layers.military, MilitaryActivity(counts.military)));
    lines, seen := Push(lines, seen, (layers.earthquakes, SeismicFeed(counts.quakes)));
    lines, seen := Push(lines, seen, (layers.satellites, OrbitalContext(counts.satellites)));
    lines, seen := Push(lines, seen, (layers.traffic, GroundMobility(counts.traffic)));
    lines, seen := Push(lines, seen, (layers.cctv, VisualVerification(counts.cctv)));
    lines, seen := Push(lines, seen, (detectMode, DetectionMode));
    assert seen == Candidates(layers, counts, detectMode);
  }

  /** `localInsights`: one line is pushed per active feed, then the no-feeds line if nothing
      was pushed; the result is the texts of those lines. */
  method LocalInsights(layers: Layers, counts: FeedCounts, detectMode: bool, locale: LocaleText)
    returns (insights: seq<string>)
    ensures insights == Render(InsightList(layers, counts, detectMode), locale)
  {
    var lines := PushActiveFeeds(layers, counts, detectMode);
    if |lines| == 0 {
      lines := lines + [NoFeeds];
    }
    insights := Render(lines, locale);
  }

  /** The list has one line per active feed, or the single no-feeds line: it is never
      empty, and it is the no-feeds line exactly when nothing is active. */
  lemma InsightListShape(layers: Layers, counts: FeedCounts, detectMode: bool)
    ensures var c := Candidates(layers, counts, detectMode);
      |InsightList(layers, counts, detectMode)| == if Enabled(c) == 0 then 1 else Enabled(c)
    ensures InsightList(layers, counts, detectMode) == [NoFeeds] <==> NothingActive(layers, detectMode)
  {
    var c := Candidates(layers, counts, detectMode);
    SelectShape(c);
    var lines := Select(c);
    if lines != [] {
      assert lines[0] in lines;
      var k :| 0 <= k < |c| && c[k].0 && c[k].1 == lines[0];
      assert c[k].1 != NoFeeds;
    }
    assert NothingActive(layers, detectMode) <==> forall k :: 0 <= k < |c| ==> !c[k].0 by {
      assert c[0].0 == layers.flights && c[1].0 == layers.military && c[2].0 == layers.earthquakes;
      assert c[3].0 == layers.satellites && c[4].0 == layers.traffic && c[5].0 == layers.cctv;
      assert c[6].0 == detectMode;
    }
  }

  /** The same on the texts: the list of texts is never empty, and it is the no-feeds
      message alone exactly when nothing is active. */
  lemma InsightTexts(layers: Layers, counts: FeedCounts, detectMode: bool, locale: LocaleText)
    ensures Render(InsightList(layers, counts, detectMode), locale) != []
    ensures Render(InsightList(layers, counts, detectMode), locale) == [Text(NoFeeds, locale)]
        <==> NothingActive(layers, detectMode)
  {
    InsightListShape(layers, counts, detectMode);
    var lines := InsightList(layers, counts, detectMode);
    var texts := Render(lines, locale);
    if texts == [Text(NoFeeds, locale)] {
      TextDistinguishesNoFeeds(lines[0], locale);
      assert lines == [lines[0]];
    }
  }

  /** The panel shows the first four insights at most (`slice(0, 4)`). */
  function Displayed(insights: seq<string>): (shown: seq<string>)
    ensures |shown| == if |insights| < 4 then |insights| else 4
    ensures shown <= insights
  {
    if |insights| <= 4 then insights else insights[..4]
  }

  /** The display is never empty, and when every feed is active it shows the flights,
      military, earthquake and satellite lines. */
  lemma DisplayedInsights(layers: Layers, counts: FeedCounts, detectMode: bool, locale: LocaleText)
    ensures Displayed(Render(InsightList(layers, counts, detectMode), locale)) != []
    ensures layers == Layers(true, true, true, true, true, true) && detectMode ==>
      Displayed(Render(InsightList(layers, counts, detectMode), locale))
        == Render([AirTraffic(counts.flights), MilitaryActivity(counts.military),
                   SeismicFeed(counts.quakes), OrbitalContext(counts.satellites)], locale)
  {
    InsightTexts(layers, counts, detectMode, locale);
    if layers == Layers(true, true, true, true, true, true) && detectMode {
      AllActiveSelection(layers, counts, detectMode);
      var lines := Select(Candidates(layers, counts, detectMode));
      assert Displayed(Render(lines, locale)) == Render(lines[..4], locale);
    }
  }

  /** With every feed active all seven lines are selected, the four feed lines first. */
  lemma AllActiveSelection(layers: Layers, counts: FeedCounts, detectMode: bool)
    requires layers == Layers(true, true, true, true, true, true) && detectMode
    ensures var lines := Select(Candidates(layers, counts, detectMode));
      |lines| == 7
      && lines[..4] == [AirTraffic(counts.flights), MilitaryActivity(counts.military),
                        SeismicFeed(counts.quakes), OrbitalContext(counts.satellites)]
  {
    var c := Candidates(layers, counts, detectMode);
    assert forall k :: 0 <= k < |c| ==> c[k].0;
    SelectAllEnabled(c);
  }

  /** When every candidate is enabled the selection is all of the candidates' lines. */
  lemma {:induction false} SelectAllEnabled(c: seq<Candidate>)
    requires forall k :: 0 <= k < |c| ==> c[k].0
    ensures |Select(c)| == |c|
    ensures forall k :: 0 <= k < |c| ==> Select(c)[k] == c[k].1
  {
    if c != [] {
      var init := c[..|c| - 1];
      SelectAllEnabled(init);
      assert Select(c) == Select(init) + [c[|c| - 1].1];
    }
  }
}
