/** The market advisor of src/data/v2/marketIntelligence.ts: a table of
    industry rates, a confidence score that benchmarks the user's hourly labor
    rates against it, and a short list of scope risks. */
module MarketIntelligence {
  import opened Wrappers
  import opened CostEngine
  import opened JsMath

  /** The free-text part of a scope: its timeline, deliverables and assumptions. */
  datatype ScopeDetails = ScopeDetails(timeline: string, deliverables: seq<string>, assumptions: seq<string>)

  // ---------------------------------------------------------------------------
  // Market data

  datatype Demand = DemandLow | DemandMedium | DemandHigh | DemandVeryHigh

  datatype MarketData = MarketData(
    industryId: string,
    avgHourlyRate: real,
    p90HourlyRate: real,
    inflationRate: real,
    demandLevel: Demand)

  /** The four industries the table knows. */
  const MarketDatabase: map<string, MarketData> := map[
    "web-dev" := MarketData("web-dev", 15000.0, 25000.0, 12.0, DemandVeryHigh),
    "graphic-design" := MarketData("graphic-design", 10000.0, 18000.0, 8.0, DemandMedium),
    "photography" := MarketData("photography", 20000.0, 35000.0, 5.0, DemandMedium),
    "catering" := MarketData("catering", 8000.0, 15000.0, 15.0, DemandHigh)
  ]

  /** The record returned for an industry the table does not know. */
  function Fallback(industryId: string): MarketData
  {
    MarketData(industryId, 10000.0, 20000.0, 5.0, DemandMedium)
  }

  /** The table entry for `industryId`, or the fallback record carrying that id.
      Whatever the id, the record names it and has a positive average rate below
      its 90th percentile. */
  function GetMarketData(industryId: string): (d: MarketData)
    ensures d.industryId == industryId
    ensures 0.0 < d.avgHourlyRate < d.p90HourlyRate
  {
    if industryId in MarketDatabase then MarketDatabase[industryId] else Fallback(industryId)
  }

  /** The four known industries get their table rows; every other id, the empty
      one included, gets 10000 / 20000 / 5% / medium demand. */
  lemma MarketTable(industryId: string)
    ensures industryId == "web-dev" ==> GetMarketData(industryId) == MarketData("web-dev", 15000.0, 25000.0, 12.0, DemandVeryHigh)
    ensures industryId == "graphic-design" ==> GetMarketData(industryId) == MarketData("graphic-design", 10000.0, 18000.0, 8.0, DemandMedium)
    ensures industryId == "photography" ==> GetMarketData(industryId) == MarketData("photography", 20000.0, 35000.0, 5.0, DemandMedium)
    ensures industryId == "catering" ==> GetMarketData(industryId) == MarketData("catering", 8000.0, 15000.0, 15.0, DemandHigh)
    ensures industryId !in {"web-dev", "graphic-design", "photography", "catering"} ==>
      GetMarketData(industryId) == MarketData(industryId, 10000.0, 20000.0, 5.0, DemandMedium)
  {
    assert MarketDatabase.Keys == {"web-dev", "graphic-design", "photography", "catering"};
  }

  // ---------------------------------------------------------------------------
  // Confidence score

  datatype Status = Low | Medium | High

  datatype Confidence = Confidence(score: int, status: Status, message: string)

  const NoLaborText := "No labor items to benchmark."
  const AlignText := "Your rates align with the market average."
  const SignificantlyAboveText := "Your rates are significantly above market average."
  const SignificantlyBelowText := "Your rates are significantly below market average."
  const SlightlyHighText := "Your rates are slightly high (Premium)."
  const CompetitiveText := "Your rates are competitive but lower than average."

  /** An item the score benchmarks: labor, selected (a missing flag excludes
      it) and hourly. */
  predicate IsBenchmark(item: CostItem)
  {
    item.category == Labor && Truthy(item.isSelected) && item.pricing == Hourly
  }

  /** `userItems.filter(...)`: the benchmark items, in their original order. */
  function BenchmarkItems(items: seq<CostItem>): (b: seq<CostItem>)
    ensures |b| <= |items|
    ensures forall x :: x in b <==> x in items && IsBenchmark(x)
  {
    if items == [] then []
    else (if IsBenchmark(items[0]) then [items[0]] else []) + BenchmarkItems(items[1..])
  }

  /** `laborItems.reduce(...)`: the rates added from the left, a missing rate as 0. */
  function RateSum(items: seq<CostItem>): real
  {
    if items == [] then 0.0 else RateSum(items[..|items| - 1]) + RateOrZero(items[|items| - 1].rate)
  }

  /** The unweighted mean of the rates of a non-empty list. */
  function MeanRate(items: seq<CostItem>): real
    requires items != []
  {
    RateSum(items) / (|items| as real)
  }

  /** 100 minus the relative deviation from the market rate in percent, not
      below zero. */
  function RawScore(avgUserRate: real, marketRate: real): real
    requires marketRate != 0.0
  {
    Max(0.0, 100.0 - Abs(avgUserRate - marketRate) / marketRate * 100.0)
  }

  /** The status tier of an (unrounded) score. */
  function Tier(score: real): Status
  {
    if score < 50.0 then Low else if score < 80.0 then Medium else High
  }

  /** The message for a tier, depending on whether the user's rate is above the market's. */
  function Advice(status: Status, above: bool): string
  {
    match status
    case High => AlignText
    case Medium => if above then SlightlyHighText else CompetitiveText
    case Low => if above then SignificantlyAboveText else SignificantlyBelowText
  }

  /** The specification of `calculateConfidenceScore`. A zero market rate would
      divide by zero; every record `GetMarketData` returns has a positive one. */
  function ConfidenceOf(items: seq<CostItem>, market: MarketData): Confidence
    requires market.avgHourlyRate != 0.0
  {
    var bench := BenchmarkItems(items);
    if bench == [] then Confidence(100, High, NoLaborText)
    else
      var avg := MeanRate(bench);
      var raw := RawScore(avg, market.avgHourlyRate);
      Confidence(Round(raw), Tier(raw), Advice(Tier(raw), avg > market.avgHourlyRate))
  }

  /** Filters and averages the benchmark rates, then reassigns the status and
      message through the score thresholds. */
  method CalculateConfidenceScore(userItems: seq<CostItem>, marketData: MarketData) returns (result: Confidence)
    requires marketData.avgHourlyRate != 0.0
    ensures result == ConfidenceOf(userItems, marketData)
  {
    var laborItems := BenchmarkItems(userItems);
    if |laborItems| == 0 {
      return Confidence(100, High, NoLaborText);
    }
    var totalRate := RateSum(laborItems);
    var avgUserRate := totalRate / (|laborItems| as real);
    var variance := Abs(avgUserRate - marketData.avgHourlyRate) / marketData.avgHourlyRate;
    var score := Max(0.0, 100.0 - variance * 100.0);
    var status := High;
    var message := AlignText;
    if score < 50.0 {
      status := Low;
      message := if avgUserRate > marketData.avgHourlyRate then SignificantlyAboveText else SignificantlyBelowText;
    } else if score < 80.0 {
      status := Medium;
      message := if avgUserRate > marketData.avgHourlyRate then SlightlyHighText else CompetitiveText;
    }
    result := Confidence(Round(score), status, message);
  }

  /** Against a positive market rate the raw score lies in [0, 100], and so does
      the rounded one. */
  lemma ScoreInRange(items: seq<CostItem>, market: MarketData)
    requires market.avgHourlyRate > 0.0
    ensures 0 <= ConfidenceOf(items, market).score <= 100
  {
    var bench := BenchmarkItems(items);
    if bench != [] {
      var avg := MeanRate(bench);
      RawScoreInRange(avg, market.avgHourlyRate);
    }
  }

  lemma RawScoreInRange(avg: real, marketRate: real)
    requires marketRate > 0.0
    ensures 0.0 <= RawScore(avg, marketRate) <= 100.0
  {
    var deviation := Abs(avg - marketRate) / marketRate;
    assert deviation >= 0.0;
    assert deviation * 100.0 >= 0.0;
  }

  /** Without a benchmark item the score is 100, high, with the "no labor"
      message; that message appears only then. */
  lemma NothingToBenchmark(items: seq<CostItem>, market: MarketData)
    requires market.avgHourlyRate != 0.0
    ensures BenchmarkItems(items) == [] ==> ConfidenceOf(items, market) == Confidence(100, High, NoLaborText)
    ensures ConfidenceOf(items, market).message == NoLaborText <==> BenchmarkItems(items) == []
  {
  }

  /** A mean rate equal to the market rate scores 100, high, "align". */
  lemma AlignedRates(items: seq<CostItem>, market: MarketData)
    requires market.avgHourlyRate != 0.0
    requires BenchmarkItems(items) != [] && MeanRate(BenchmarkItems(items)) == market.avgHourlyRate
    ensures ConfidenceOf(items, market) == Confidence(100, High, AlignText)
  {
    assert RawScore(market.avgHourlyRate, market.avgHourlyRate) == 100.0;
  }

  /** With benchmark items, the status follows the unrounded score: low below 50,
      medium below 80, high otherwise; the "above" wording appears exactly when
      the status is not high and the mean rate is strictly above the market's,
      so a tie reads as "below". */
  lemma StatusTiers(items: seq<CostItem>, market: MarketData)
    requires market.avgHourlyRate != 0.0
    requires BenchmarkItems(items) != []
    ensures var avg := MeanRate(BenchmarkItems(items));
      var raw := RawScore(avg, market.avgHourlyRate);
      var c := ConfidenceOf(items, market);
      && (c.status == Low <==> raw < 50.0)
      && (c.status == Medium <==> 50.0 <= raw < 80.0)
      && (c.status == High <==> raw >= 80.0)
      && (c.message in {SignificantlyAboveText, SlightlyHighText} <==> raw < 80.0 && avg > market.avgHourlyRate)
      && (c.message == AlignText <==> raw >= 80.0)
  {
  }

  /** Rounding happens after the tiers are chosen: a single benchmark rate of
      12040 against the fallback rate of 10000 scores 79.6, which shows as 80
      while the status stays medium ("slightly high"). */
  lemma RoundedScoreCanCrossTier(item: CostItem, market: MarketData)
    requires item == CostItem("dev", "Dev", None, Labor, Hourly, Some(12040.0), None, None, Some(true))
    requires market == GetMarketData("unknown")
    ensures ConfidenceOf([item], market) == Confidence(80, Medium, SlightlyHighText)
  {
    MarketTable("unknown");
    assert BenchmarkItems([item]) == [item];
    assert RateSum([item]) == 12040.0 by {
      assert [item][..0] == [];
    }
    assert RawScore(12040.0, 10000.0) == 79.6;
  }

  /** `BenchmarkItems` is additive over concatenation. */
  lemma {:induction false} BenchmarkAppend(a: seq<CostItem>, b: seq<CostItem>)
    ensures BenchmarkItems(a + b) == BenchmarkItems(a) + BenchmarkItems(b)
  {
    if a != [] {
      assert (a + b)[1..] == a[1..] + b;
      BenchmarkAppend(a[1..], b);
    } else {
      assert a + b == b;
    }
  }

  /** Filtering twice is filtering once. */
  lemma {:induction false} BenchmarkIdempotent(items: seq<CostItem>)
    ensures BenchmarkItems(BenchmarkItems(items)) == BenchmarkItems(items)
  {
    if items != [] {
      var head := if IsBenchmark(items[0]) then [items[0]] else [];
      BenchmarkAppend(head, BenchmarkItems(items[1..]));
      BenchmarkIdempotent(items[1..]);
      if IsBenchmark(items[0]) {
        assert BenchmarkItems(head) == head by {
          assert head[1..] == [];
        }
      }
    }
  }

  /** The score reads only the benchmark items: the rest of the scope can be
      anything, and adding a non-benchmark item changes nothing. */
  lemma ConfidenceReadsOnlyBenchmark(items: seq<CostItem>, x: CostItem, market: MarketData)
    requires market.avgHourlyRate != 0.0
    ensures ConfidenceOf(items, market) == ConfidenceOf(BenchmarkItems(items), market)
    ensures !IsBenchmark(x) ==> ConfidenceOf(items + [x], market) == ConfidenceOf(items, market)
  {
    BenchmarkIdempotent(items);
    SameBenchmarkSameConfidence(items, BenchmarkItems(items), market);
    if !IsBenchmark(x) {
      BenchmarkAppend(items, [x]);
      assert BenchmarkItems([x]) == [] by {
        assert [x][1..] == [];
      }
      assert BenchmarkItems(items) + [] == BenchmarkItems(items);
      SameBenchmarkSameConfidence(items + [x], items, market);
    }
  }

  lemma SameBenchmarkSameConfidence(a: seq<CostItem>, b: seq<CostItem>, market: MarketData)
    requires market.avgHourlyRate != 0.0
    requires BenchmarkItems(a) == BenchmarkItems(b)
    ensures ConfidenceOf(a, market) == ConfidenceOf(b, market)
  {
  }

  // ---------------------------------------------------------------------------
  // Risk rules

  datatype RiskLevel = Warning | Critical

  datatype RiskIndicator = RiskIndicator(id: string, level: RiskLevel, message: string, suggestion: string)

  const NoTimelineRisk := RiskIndicator("no-timeline", Critical,
    "No timeline specified.", "Define a timeline to avoid scope creep.")
  const TightTimelineRisk := RiskIndicator("tight-timeline", Warning,
    "Timeline seems very short for the number of items.", "Consider extending to 1 week minimum.")
  const NoAssumptionsRisk := RiskIndicator("no-assumptions", Warning,
    "No assumptions/exclusions listed.", "List what is NOT included to prevent disputes.")

  /** A character lower-cased; only the ASCII letters A-Z change. */
  function LowerChar(c: char): char
  {
    if 'A' <= c <= 'Z' then (c as int + 32) as char else c
  }

  /** `toLowerCase()` on the ASCII range: no upper-case letter survives, an
      upper-case letter becomes a lower-case one, and every other character is
      kept in place. */
  function ToLower(s: string): (t: string)
    ensures |t| == |s|
    ensures forall i :: 0 <= i < |t| ==> !('A' <= t[i] <= 'Z')
    ensures forall i :: 0 <= i < |s| && 'A' <= s[i] <= 'Z' ==> 'a' <= t[i] <= 'z'
    ensures forall i :: 0 <= i < |s| && !('A' <= s[i] <= 'Z') ==> t[i] == s[i]
  {
    seq(|s|, i requires 0 <= i < |s| => LowerChar(s[i]))
  }

  /** Two strings that differ at most in the case of ASCII letters. */
  predicate SameIgnoringCase(a: string, b: string)
  {
    |a| == |b| && forall i :: 0 <= i < |a| ==> LowerChar(a[i]) == LowerChar(b[i])
  }

  /** `sub` occurs in `s` starting at index `i`. */
  predicate OccursAt(s: string, sub: string, i: int)
  {
    0 <= i && i + |sub| <= |s| && s[i..i + |sub|] == sub
  }

  /** `s.includes(sub)`. */
  predicate Contains(s: string, sub: string)
  {
    exists i :: 0 <= i <= |s| - |sub| && OccursAt(s, sub, i)
  }

  /** The condition of the tight-timeline rule. */
  predicate TightTimeline(timeline: string, itemCount: nat)
  {
    Contains(ToLower(timeline), "day") && itemCount > 5
  }

  /** The specification of `analyzeRisk`: at most one timeline risk, then at
      most one assumptions risk. */
  function Risks(details: ScopeDetails, items: seq<CostItem>): seq<RiskIndicator>
  {
    var timelineRisks :=
      if details.timeline == "" then [NoTimelineRisk]
      else if TightTimeline(details.timeline, |items|) then [TightTimelineRisk]
      else [];
    timelineRisks + (if details.assumptions == [] then [NoAssumptionsRisk] else [])
  }

  /** Pushes each risk whose rule fires onto a fresh list. */
  method AnalyzeRisk(scopeDetails: ScopeDetails, items: seq<CostItem>) returns (risks: seq<RiskIndicator>)
    ensures risks == Risks(scopeDetails, items)
  {
    risks := [];
    if scopeDetails.timeline == "" {
      risks := risks + [NoTimelineRisk];
    } else if Contains(ToLower(scopeDetails.timeline), "day") && |items| > 5 {
      risks := risks + [TightTimelineRisk];
    }
    var hasAssumptions := |scopeDetails.assumptions| > 0;
    if !hasAssumptions {
      risks := risks + [NoAssumptionsRisk];
    }
  }

  /** Holds when some risk in `risks` has id `id`. */
  predicate HasRisk(risks: seq<RiskIndicator>, id: string)
  {
    exists i :: 0 <= i < |risks| && risks[i].id == id
  }

  /** At most two risks, with distinct ids. */
  lemma RisksAreFewAndDistinct(details: ScopeDetails, items: seq<CostItem>)
    ensures var r := Risks(details, items);
      && |r| <= 2
      && forall i, j :: 0 <= i < j < |r| ==> r[i].id != r[j].id
  {
  }

  /** An empty timeline always gives a first, critical `no-timeline` risk, and
      then the tight-timeline rule cannot fire. */
  lemma EmptyTimelineRisk(details: ScopeDetails, items: seq<CostItem>)
    requires details.timeline == ""
    ensures var r := Risks(details, items);
      && |r| >= 1 && r[0] == NoTimelineRisk && r[0].level == Critical
      && !HasRisk(r, "tight-timeline")
  {
  }

  /** The tight-timeline warning fires exactly when the timeline is non-empty,
      contains "day" in any case, and the scope has more than five items,
      selected or not. */
  lemma TightTimelineRule(details: ScopeDetails, items: seq<CostItem>)
    ensures HasRisk(Risks(details, items), "tight-timeline")
      <==> details.timeline != "" && Contains(ToLower(details.timeline), "day") && |items| > 5
  {
    var r := Risks(details, items);
    if details.timeline != "" && TightTimeline(details.timeline, |items|) {
      assert r[0] == TightTimelineRisk;
    }
  }

  /** The `no-assumptions` warning appears exactly when no assumption is listed,
      and it is then the last risk. */
  lemma NoAssumptionsRule(details: ScopeDetails, items: seq<CostItem>)
    ensures var r := Risks(details, items);
      && (HasRisk(r, "no-assumptions") <==> details.assumptions == [])
      && (details.assumptions == [] ==> r[|r| - 1] == NoAssumptionsRisk)
  {
    var r := Risks(details, items);
    if details.assumptions == [] {
      assert r[|r| - 1] == NoAssumptionsRisk;
    }
  }

  /** The risks read the timeline whatever its case: two timelines that differ
      only in the case of their letters give the same risks. */
  lemma TimelineCaseIgnored(a: string, b: string, deliverables: seq<string>, assumptions: seq<string>, items: seq<CostItem>)
    requires SameIgnoringCase(a, b)
    ensures Risks(ScopeDetails(a, deliverables, assumptions), items) == Risks(ScopeDetails(b, deliverables, assumptions), items)
  {
    assert ToLower(a) == ToLower(b);
  }

  /** An upper-case timeline is tight just like its mixed-case spelling. */
  lemma UpperCaseTimeline(itemCount: nat)
    requires itemCount > 5
    ensures TightTimeline("5 DAYS", itemCount) && TightTimeline("5 Days", itemCount)
  {
    var upper, mixed := ToLower("5 DAYS"), ToLower("5 Days");
    assert upper[2..5] == "day" && OccursAt(upper, "day", 2);
    assert mixed[2..5] == "day" && OccursAt(mixed, "day", 2);
  }

  /** A six-item scope due in "5 Days" with no assumptions gets both warnings,
      the timeline one first. */
  lemma TightTimelineExample(details: ScopeDetails, items: seq<CostItem>)
    requires details == ScopeDetails("5 Days", [], [])
    requires |items| == 6
    ensures Risks(details, items) == [TightTimelineRisk, NoAssumptionsRisk]
  {
    var lowered := ToLower("5 Days");
    assert lowered[2..5] == "day";
    assert OccursAt(lowered, "day", 2);
  }
}
