/**
 * The points-based score of a stored prospect, internal/domain/agents/scorer.py
 * (`_format_location` and `calculate_points_score`). Points are integer
 * tenths: 15 points is 150, and a discovery confidence in hundredths (0.85 is
 * 85) contributes `confidence * 10` points, i.e. exactly its hundredths as
 * tenths. The normalised score `points / 100` in thousandths is the same
 * number as the points in tenths.
 */
module Scorer {
  import opened Wrappers
  import opened Records
  import opened Text

  /** What `str()` gives for a truthy value: never empty. */
  type Shown = s: string | s != [] witness "0"

  /**
   * The `location` of a stored prospect: missing or `None`, a string, a dict
   * with optional keys, or any other truthy value (a number, a list), known
   * here by its `str()`.
   */
  datatype Location =
    | NoLocation
    | LocationText(text: string)
    | LocationDict(fullAddress: Option<string>, city: Option<string>, country: Option<string>)
    | LocationOther(shown: Shown)

  /** `_format_location(location)` (lines 23-37): never empty. */
  function FormatLocation(loc: Location): (r: string)
    ensures r != ""
    ensures loc.NoLocation? ==> r == "N/A"
    ensures loc.LocationText? ==> r == (if loc.text == "" then "N/A" else loc.text)
    ensures loc.LocationDict? && Truthy(loc.fullAddress) ==> r == loc.fullAddress.value
    ensures loc.LocationOther? ==> r == loc.shown
  {
    match loc
    case NoLocation => "N/A"
    case LocationOther(shown) => shown
    case LocationText(text) => if text == "" then "N/A" else text
    case LocationDict(fullAddress, city, country) =>
      var parts := (if Truthy(city) then [city.value] else []) + (if Truthy(country) then [country.value] else []);
      if Truthy(fullAddress) then fullAddress.value
      else if parts != [] then Join(parts, ", ")
      else "N/A"
  }

  /** Without a full address, a dict reads "city, country" from the parts it has, or "N/A". */
  lemma {:induction false} FormatLocationParts(city: Option<string>, country: Option<string>)
    ensures var r := FormatLocation(LocationDict(None, city, country));
      && (Truthy(city) && Truthy(country) ==> r == city.value + ", " + country.value)
      && (Truthy(city) && !Truthy(country) ==> r == city.value)
      && (!Truthy(city) && Truthy(country) ==> r == country.value)
      && (!Truthy(city) && !Truthy(country) ==> r == "N/A")
  {
    if Truthy(city) && Truthy(country) {
      var parts := [city.value] + [country.value];
      assert FormatLocation(LocationDict(None, city, country)) == Join(parts, ", ");
      assert |parts| == 2 && parts[0] == city.value && parts[1..] == [country.value];
      assert Join([country.value], ", ") == country.value;
    }
  }

  /** A stored prospect as `calculate_points_score` reads it (a missing list reads as empty). */
  datatype ScoredProspect = ScoredProspect(
    prospectId: string,
    emails: seq<string>,
    phones: seq<string>,
    websites: seq<string>,
    location: Location,
    platforms: seq<string>,
    about: Option<string>,
    discoveryConfidence: int)

  /** The scores' `breakdown` dict, in insertion order. */
  type Breakdown = seq<(string, int)>

  datatype PointsScore = PointsScore(prospectId: string, pointsScore: int, rawPoints: int, breakdown: Breakdown)

  /** Lines 171-174. */
  const QualityIndicators: seq<string> :=
    ["experience", "years", "expert", "professional", "trader", "CFA", "CMT", "certified", "specialist", "analyst"]

  /** How many of `indicators` occur in `text`, ignoring case. */
  function CountFound(indicators: seq<string>, text: string): (n: nat)
    ensures n <= |indicators|
  {
    if indicators == [] then 0
    else (if Contains(Lower(text), Lower(indicators[0])) then 1 else 0) + CountFound(indicators[1..], text)
  }

  /** Line 175. */
  function FoundIndicators(about: string): (n: nat)
    ensures n <= 10
  {
    CountFound(QualityIndicators, about)
  }

  /** The count ignores the case of the about text. */
  lemma {:induction false} CountFoundIgnoresCase(indicators: seq<string>, text: string)
    ensures CountFound(indicators, Lower(text)) == CountFound(indicators, text)
  {
    LowerIsLower(text);
    if indicators != [] {
      CountFoundIgnoresCase(indicators[1..], text);
    }
  }

  /** Lines 146-155: 10 points for a dict with a full address or a city, or for any other truthy value. */
  function LocationPoints(loc: Location): (r: nat)
    ensures r == 0 || r == 100
    ensures r == 100 <==>
      || (loc.LocationText? && loc.text != "")
      || (loc.LocationDict? && (Truthy(loc.fullAddress) || Truthy(loc.city)))
      || loc.LocationOther?
  {
    match loc
    case NoLocation => 0
    case LocationOther(_) => 100
    case LocationText(text) => if text != "" then 100 else 0
    case LocationDict(fullAddress, city, _) => if Truthy(fullAddress) || Truthy(city) then 100 else 0
  }

  /**
   * Lines 158-166: at most 20 points; none exactly without platforms, the
   * full 20 exactly from two platforms on, and 15 for a single one.
   */
  function PlatformPoints(platforms: seq<string>): (r: nat)
    ensures r <= 200
    ensures r == 0 <==> platforms == []
    ensures r == 200 <==> |platforms| >= 2
    ensures |platforms| == 1 ==> r == 150
  {
    if platforms == [] then 0 else if |platforms| >= 2 then 200 else 150
  }

  /** More platforms never score fewer points. */
  lemma {:induction false} PlatformPointsMonotone(a: seq<string>, b: seq<string>)
    ensures PlatformPoints(a) <= PlatformPoints(a + b)
  {
  }

  /** Lines 177-188: 20, 15, 10 or 5 points for three or more, two, one or no indicators. */
  function QualityPoints(found: nat): (r: nat)
    ensures 50 <= r <= 200
    ensures r == 200 <==> found >= 3
    ensures found == 2 ==> r == 150
    ensures found == 1 ==> r == 100
    ensures r == 50 <==> found == 0
  {
    if found >= 3 then 200 else if found >= 2 then 150 else if found >= 1 then 100 else 50
  }

  /** Lines 169-188: a falsy about scores nothing, any other between 5 and 20 points. */
  function AboutPoints(about: Option<string>): (r: nat)
    ensures r == 0 <==> !Truthy(about)
    ensures Truthy(about) ==> 50 <= r <= 200
  {
    if Truthy(about) then QualityPoints(FoundIndicators(about.value)) else 0
  }

  /** An indicator found in `a` is still found once more text follows. */
  lemma {:induction false} CountFoundAppend(indicators: seq<string>, a: string, b: string)
    ensures CountFound(indicators, a) <= CountFound(indicators, a + b)
    decreases |indicators|
  {
    if indicators != [] {
      LowerConcat(a, b);
      var w := Lower(indicators[0]);
      if Contains(Lower(a), w) {
        ContainsAppend(Lower(a), Lower(b), w);
      }
      CountFoundAppend(indicators[1..], a, b);
    }
  }

  /** Adding text to the about section never lowers its points. */
  lemma {:induction false} AboutPointsMonotone(a: string, b: string)
    ensures AboutPoints(Some(a)) <= AboutPoints(Some(a + b))
  {
    if a != "" {
      CountFoundAppend(QualityIndicators, a, b);
    }
  }

  /** The about points do not depend on the letter case of the text. */
  lemma {:induction false} AboutPointsIgnoresCase(a: string)
    ensures AboutPoints(Some(Lower(a))) == AboutPoints(Some(a))
  {
    CountFoundIgnoresCase(QualityIndicators, a);
  }

  /** The sum of a breakdown's values. */
  function Total(b: Breakdown): int
  {
    if b == [] then 0 else b[0].1 + Total(b[1..])
  }

  lemma {:induction false} TotalAppend(a: Breakdown, b: Breakdown)
    ensures Total(a + b) == Total(a) + Total(b)
  {
    if a == [] {
      assert a + b == b;
    } else {
      assert (a + b)[1..] == a[1..] + b;
      TotalAppend(a[1..], b);
    }
  }

  /** Lines 130-143: 15, 10 and 15 points for any email, phone and website. */
  function ContactPoints(p: ScoredProspect): nat
  {
    (if p.emails != [] then 150 else 0) + (if p.phones != [] then 100 else 0) + (if p.websites != [] then 150 else 0)
  }

  /** Lines 130-193: the sum of the section points, in tenths. */
  function RawPoints(p: ScoredProspect): int
  {
    ContactPoints(p) + LocationPoints(p.location) + PlatformPoints(p.platforms) + AboutPoints(p.about)
    + p.discoveryConfidence
  }

  /** An entry present exactly when the condition holds. */
  function Entry(present: bool, key: string, value: int): (b: Breakdown)
    ensures Total(b) == if present then value else 0
  {
    if present then [(key, value)] else []
  }

  /** The breakdown after the contact section (lines 135-143). */
  function ContactEntries(p: ScoredProspect): (b: Breakdown)
    ensures Total(b) == ContactPoints(p)
  {
    var e := Entry(p.emails != [], "email", 150);
    var ph := Entry(p.phones != [], "phone", 100);
    var w := Entry(p.websites != [], "website", 150);
    TotalAppend(e, ph);
    TotalAppend(e + ph, w);
    e + ph + w
  }

  /** ... then the location section (lines 146-155). */
  function LocationEntries(p: ScoredProspect): (b: Breakdown)
    ensures Total(b) == ContactPoints(p) + LocationPoints(p.location)
  {
    var e := Entry(LocationPoints(p.location) > 0, "location", 100);
    TotalAppend(ContactEntries(p), e);
    ContactEntries(p) + e
  }

  /** ... then the platforms section (lines 158-166). */
  function PlatformEntries(p: ScoredProspect): (b: Breakdown)
    ensures Total(b) == ContactPoints(p) + LocationPoints(p.location) + PlatformPoints(p.platforms)
  {
    var e := Entry(p.platforms != [], "platforms", PlatformPoints(p.platforms));
    TotalAppend(LocationEntries(p), e);
    LocationEntries(p) + e
  }

  /** ... then the about section (lines 169-188). */
  function AboutEntries(p: ScoredProspect): (b: Breakdown)
    ensures Total(b) == ContactPoints(p) + LocationPoints(p.location) + PlatformPoints(p.platforms) + AboutPoints(p.about)
  {
    var e := Entry(Truthy(p.about), "about_quality", AboutPoints(p.about));
    TotalAppend(PlatformEntries(p), e);
    PlatformEntries(p) + e
  }

  /**
   * The breakdown lines 130-193 build, in insertion order, ending with the
   * discovery confidence; its values add up to the raw points.
   */
  function ExpectedBreakdown(p: ScoredProspect): (b: Breakdown)
    ensures Total(b) == RawPoints(p)
  {
    var e := [("discovery_confidence", p.discoveryConfidence)];
    TotalAppend(AboutEntries(p), e);
    AboutEntries(p) + e
  }

  /**
   * One `points += value; breakdown[key] = value` step, taken when
   * `present`: the points stay the total of the breakdown.
   */
  method AddPoints(points: int, breakdown: Breakdown, present: bool, key: string, value: int)
    returns (points': int, breakdown': Breakdown)
    requires points == Total(breakdown)
    ensures breakdown' == breakdown + Entry(present, key, value)
    ensures points' == Total(breakdown')
  {
    TotalAppend(breakdown, Entry(present, key, value));
    if present {
      points' := points + value;
      breakdown' := breakdown + [(key, value)];
    } else {
      points', breakdown' := points, breakdown;
      assert breakdown + [] == breakdown;
    }
  }

  /**
   * `calculate_points_score(prospect)` (lines 116-203): the breakdown holds
   * one entry per scored feature, `raw_points` is the sum of the section
   * points and of the breakdown's values, and `points_score` is that sum
   * normalised and capped at 1.0.
   */
  method CalculatePointsScore(p: ScoredProspect) returns (r: PointsScore)
    ensures r.prospectId == p.prospectId
    ensures r.breakdown == ExpectedBreakdown(p)
    ensures r.rawPoints == RawPoints(p) == Total(r.breakdown)
    ensures r.pointsScore == if r.rawPoints < 1000 then r.rawPoints else 1000
  {
    var points := 0;
    var breakdown: Breakdown := [];
    points, breakdown := AddPoints(points, breakdown, p.emails != [], "email", 150);
    assert breakdown == Entry(p.emails != [], "email", 150);
    points, breakdown := AddPoints(points, breakdown, p.phones != [], "phone", 100);
    points, breakdown := AddPoints(points, breakdown, p.websites != [], "website", 150);
    assert breakdown == ContactEntries(p);

    var located := match p.location
      case NoLocation => false
      case LocationText(text) => text != ""
      case LocationDict(fullAddress, city, _) => Truthy(fullAddress) || Truthy(city)
      case LocationOther(_) => true;
    points, breakdown := AddPoints(points, breakdown, located, "location", 100);
    assert breakdown == LocationEntries(p);

    var platformPoints := if |p.platforms| >= 2 then 200 else 150;
    points, breakdown := AddPoints(points, breakdown, p.platforms != [], "platforms", platformPoints);
    assert breakdown == PlatformEntries(p);

    var quality := 0;
    if Truthy(p.about) {
      var found := FoundIndicators(p.about.value);
      quality := if found >= 3 then 200 else if found >= 2 then 150 else if found >= 1 then 100 else 50;
    }
    points, breakdown := AddPoints(points, breakdown, Truthy(p.about), "about_quality", quality);
    assert breakdown == AboutEntries(p);

    points, breakdown := AddPoints(points, breakdown, true, "discovery_confidence", p.discoveryConfidence);
    r := PointsScore(p.prospectId, if points < 1000 then points else 1000, points, breakdown);
  }

  /**
   * With a discovery confidence in [0, 1.0] the points lie in [0, 100], so
   * the cap at line 196 never changes the score.
   */
  lemma {:induction false} CapNeverBinds(p: ScoredProspect)
    requires 0 <= p.discoveryConfidence <= 100
    ensures 0 <= RawPoints(p) <= 1000
  {
  }

  /** Every feature at its best scores exactly 100 points. */
  lemma {:induction false} FullMarks(p: ScoredProspect)
    requires p.emails != [] && p.phones != [] && p.websites != [] && |p.platforms| >= 2
    requires LocationPoints(p.location) > 0
    requires Truthy(p.about) && FoundIndicators(p.about.value) >= 3
    requires p.discoveryConfidence == 100
    ensures RawPoints(p) == 1000
  {
  }
}
