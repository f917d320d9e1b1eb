// The deal analytics engine (lib/calculations.ts). Every query takes the deal
// collection and, where the source reads the clock, the current time `now`.

module Calculations {
  import opened DealTypes
  import opened Constants
  import opened Seqs
  import Text

  // ---------------------------------------------------------------------------
  // Stage filters

  predicate IsOpenDeal(d: Deal) {
    d.pipelineStage in OpenStages
  }

  predicate IsWonDeal(d: Deal) {
    d.pipelineStage == ClosedWon
  }

  predicate IsLostDeal(d: Deal) {
    d.pipelineStage == ClosedLost
  }

  predicate IsClosedDeal(d: Deal) {
    d.pipelineStage == ClosedWon || d.pipelineStage == ClosedLost
  }

  predicate HasUnknownStage(d: Deal) {
    d.pipelineStage.Unknown?
  }

  function AtStage(stage: Stage): Deal -> bool {
    (d: Deal) => d.pipelineStage == stage
  }

  function DealValue(d: Deal): real {
    d.dealValue
  }

  /** A deal's value discounted by its stage's probability. */
  function WeightedValue(d: Deal): real {
    d.dealValue * Probability(d.pipelineStage)
  }

  /** getOpenDeals: the deals at one of the five open stages, in input order. */
  function OpenDeals(deals: seq<Deal>): (r: seq<Deal>)
    ensures IsSubsequence(r, deals)
    ensures forall d :: d in r <==>
      d in deals && d.pipelineStage in {Lead, Qualification, Discovery, ProposalSent, Negotiation}
    ensures |r| == Count(IsOpenDeal, deals)
  {
    Filter(IsOpenDeal, deals)
  }

  /** getWonDeals. */
  function WonDeals(deals: seq<Deal>): (r: seq<Deal>)
    ensures IsSubsequence(r, deals)
    ensures forall d :: d in r <==> d in deals && d.pipelineStage == ClosedWon
    ensures |r| == Count(IsWonDeal, deals)
  {
    Filter(IsWonDeal, deals)
  }

  /** getLostDeals. */
  function LostDeals(deals: seq<Deal>): (r: seq<Deal>)
    ensures IsSubsequence(r, deals)
    ensures forall d :: d in r <==> d in deals && d.pipelineStage == ClosedLost
    ensures |r| == Count(IsLostDeal, deals)
  {
    Filter(IsLostDeal, deals)
  }

  /** A deal at a known stage is in exactly one of the open, won and lost
      groups; a deal whose stage text is unknown is in none. */
  lemma StageGroupsPartition(d: Deal)
    ensures !HasUnknownStage(d) ==>
      (IsOpenDeal(d) && !IsWonDeal(d) && !IsLostDeal(d))
      || (!IsOpenDeal(d) && IsWonDeal(d) && !IsLostDeal(d))
      || (!IsOpenDeal(d) && !IsWonDeal(d) && IsLostDeal(d))
    ensures HasUnknownStage(d) ==> !IsOpenDeal(d) && !IsWonDeal(d) && !IsLostDeal(d)
  {
  }

  /** The open, won and lost deals together with the deals of unknown stage
      account for every deal exactly once. */
  lemma {:induction false} StageGroupsCoverAll(deals: seq<Deal>)
    ensures |OpenDeals(deals)| + |WonDeals(deals)| + |LostDeals(deals)|
            + Count(HasUnknownStage, deals) == |deals|
  {
    if |deals| > 0 {
      StageGroupsCoverAll(deals[1..]);
    }
  }

  // ---------------------------------------------------------------------------
  // Pipeline sums

  predicate NonNegativeValues(deals: seq<Deal>) {
    forall d :: d in deals ==> d.dealValue >= 0.0
  }

  /** getGrossPipe: the total value of the open deals; never negative when
      no deal value is. */
  function GrossPipe(deals: seq<Deal>): (r: real)
    ensures NonNegativeValues(deals) ==> 0.0 <= r
  {
    var open := OpenDeals(deals);
    if NonNegativeValues(deals) then
      SumNonNegative(DealValue, open);
      Sum(DealValue, open)
    else Sum(DealValue, open)
  }

  /** getWeightedPipe: the probability-weighted value of the open deals. With
      non-negative values it lies between 0 and the gross pipe, because every
      probability is at most 1. */
  function WeightedPipe(deals: seq<Deal>): (r: real)
    ensures NonNegativeValues(deals) ==> 0.0 <= r <= GrossPipe(deals)
  {
    var open := OpenDeals(deals);
    if NonNegativeValues(deals) then
      WeightedAtMostValue(deals);
      SumNonNegative(WeightedValue, open);
      SumPointwiseLe(WeightedValue, DealValue, open);
      Sum(WeightedValue, open)
    else Sum(WeightedValue, open)
  }

  /** The end of the forecast window `days` days after `now`. */
  function Horizon(now: Millis, days: int): Millis {
    now + days * DayMillis
  }

  /** An open deal whose next follow-up falls strictly before `horizon`. */
  function DueBefore(horizon: Millis): Deal -> bool {
    (d: Deal) => IsOpenDeal(d) && d.nextFollowupDate < horizon
  }

  /** getForecast: the weighted value of the open deals due for follow-up
      strictly before `now` plus `days` days. With non-negative values it lies
      between 0 and the weighted pipe, of which it is a part. */
  function Forecast(deals: seq<Deal>, days: int, now: Millis): (r: real)
    ensures NonNegativeValues(deals) ==> 0.0 <= r <= WeightedPipe(deals)
  {
    var due := Filter(DueBefore(Horizon(now, days)), deals);
    if NonNegativeValues(deals) then
      WeightedAtMostValue(deals);
      SumNonNegative(WeightedValue, due);
      SumFilterMono(WeightedValue, DueBefore(Horizon(now, days)), IsOpenDeal, deals);
      Sum(WeightedValue, due)
    else Sum(WeightedValue, due)
  }

  /** A deal counts in the forecast exactly when it is open and its
      follow-up date is strictly before the horizon. */
  lemma ForecastCounts(deals: seq<Deal>, days: int, now: Millis, d: Deal)
    ensures d in Filter(DueBefore(Horizon(now, days)), deals) <==>
      d in deals && d.pipelineStage in OpenStages && d.nextFollowupDate < now + days * 86_400_000
  {
  }

  /** The three `reduce` sums, one deal at a time: nothing sums to 0, and a
      new deal adds its value to the gross pipe and its weighted value to the
      weighted pipe when it is open, and its weighted value to the forecast
      when it is open and due strictly before the horizon; otherwise it adds
      nothing. */
  lemma PipeSumsStep(deals: seq<Deal>, d: Deal, days: int, now: Millis)
    ensures GrossPipe([]) == 0.0 && WeightedPipe([]) == 0.0 && Forecast([], days, now) == 0.0
    ensures GrossPipe(deals + [d]) == GrossPipe(deals) + (if IsOpenDeal(d) then d.dealValue else 0.0)
    ensures WeightedPipe(deals + [d])
            == WeightedPipe(deals) + (if IsOpenDeal(d) then d.dealValue * Probability(d.pipelineStage) else 0.0)
    ensures Forecast(deals + [d], days, now)
            == Forecast(deals, days, now)
               + (if IsOpenDeal(d) && d.nextFollowupDate < now + days * DayMillis
                  then d.dealValue * Probability(d.pipelineStage) else 0.0)
  {
    SumFilterSnoc(DealValue, IsOpenDeal, deals, d);
    SumFilterSnoc(WeightedValue, IsOpenDeal, deals, d);
    SumFilterSnoc(WeightedValue, DueBefore(Horizon(now, days)), deals, d);
  }

  /** A horizon past every open deal's follow-up forecasts the whole
      weighted pipe. */
  lemma ForecastPastEveryFollowUp(deals: seq<Deal>, days: int, now: Millis)
    requires forall d :: d in deals && IsOpenDeal(d) ==> d.nextFollowupDate < Horizon(now, days)
    ensures Forecast(deals, days, now) == WeightedPipe(deals)
  {
    FilterAgree(DueBefore(Horizon(now, days)), IsOpenDeal, deals);
  }

  lemma WeightedAtMostValue(deals: seq<Deal>)
    requires NonNegativeValues(deals)
    ensures forall d :: d in deals ==> 0.0 <= WeightedValue(d) <= DealValue(d)
  {
    forall d | d in deals
      ensures 0.0 <= WeightedValue(d) <= DealValue(d)
    {
      var p := Probability(d.pipelineStage);
      assert 0.0 <= d.dealValue * p <= d.dealValue * 1.0;
    }
  }

  /** A longer horizon never forecasts less. */
  lemma ForecastMonotone(deals: seq<Deal>, days1: int, days2: int, now: Millis)
    requires NonNegativeValues(deals)
    requires days1 <= days2
    ensures Forecast(deals, days1, now) <= Forecast(deals, days2, now)
  {
    WeightedAtMostValue(deals);
    assert Horizon(now, days1) <= Horizon(now, days2);
    SumFilterMono(WeightedValue, DueBefore(Horizon(now, days1)), DueBefore(Horizon(now, days2)), deals);
  }

  datatype ForecastPoint = ForecastPoint(labelText: string, value: real)

  /** getForecastData: the forecast at the short, mid and long horizons,
      labelled with the number of days and "j". */
  function ForecastData(deals: seq<Deal>, now: Millis): (r: seq<ForecastPoint>)
    ensures |r| == 3
    ensures r[0].labelText == "30j" && r[1].labelText == "60j" && r[2].labelText == "90j"
    ensures r[0].value == Forecast(deals, 30, now)
    ensures r[1].value == Forecast(deals, 60, now)
    ensures r[2].value == Forecast(deals, 90, now)
  {
    [ ForecastPoint(Text.NatToString(ForecastShort) + "j", Forecast(deals, ForecastShort, now)),
      ForecastPoint(Text.NatToString(ForecastMid) + "j", Forecast(deals, ForecastMid, now)),
      ForecastPoint(Text.NatToString(ForecastLong) + "j", Forecast(deals, ForecastLong, now)) ]
  }

  /** The forecast series rises with the horizon and never exceeds the
      weighted pipeline. */
  lemma ForecastDataNonDecreasing(deals: seq<Deal>, now: Millis)
    requires NonNegativeValues(deals)
    ensures 0.0 <= ForecastData(deals, now)[0].value
    ensures ForecastData(deals, now)[0].value <= ForecastData(deals, now)[1].value
    ensures ForecastData(deals, now)[1].value <= ForecastData(deals, now)[2].value
    ensures ForecastData(deals, now)[2].value <= WeightedPipe(deals)
  {
    ForecastMonotone(deals, ForecastShort, ForecastMid, now);
    ForecastMonotone(deals, ForecastMid, ForecastLong, now);
  }

  // ---------------------------------------------------------------------------
  // Triage

  /** Not closed and last contacted before the cold threshold. */
  function ColdAt(now: Millis): Deal -> bool {
    var threshold := now - ColdDealDays * DayMillis;
    (d: Deal) => d.pipelineStage != ClosedWon && d.pipelineStage != ClosedLost
                 && d.lastContactDate < threshold
  }

  /** getColdDeals: every deal not at a closed stage (unknown stage texts
      included) whose last contact is strictly before `now` minus the cold
      threshold, in input order. */
  function ColdDeals(deals: seq<Deal>, now: Millis): (r: seq<Deal>)
    ensures IsSubsequence(r, deals)
    ensures forall d :: d in r <==>
      && d in deals
      && d.pipelineStage != ClosedWon && d.pipelineStage != ClosedLost
      && d.lastContactDate < now - 14 * 86_400_000
    ensures |r| == Count(ColdAt(now), deals)
  {
    Filter(ColdAt(now), deals)
  }

  /** A contact exactly at the threshold is not cold; one millisecond earlier is. */
  lemma ColdDealBoundary(d: Deal, now: Millis)
    requires !IsClosedDeal(d)
    ensures d.lastContactDate == now - ColdDealDays * DayMillis ==> ColdDeals([d], now) == []
    ensures d.lastContactDate == now - ColdDealDays * DayMillis - 1 ==> ColdDeals([d], now) == [d]
  {
  }

  /** Still a Lead and created before the unhandled-lead threshold. */
  function UnhandledAt(now: Millis): Deal -> bool {
    var threshold := now - UnhandledLeadHours * HourMillis;
    (d: Deal) => d.pipelineStage == Lead && d.createdDate < threshold
  }

  /** getUnhandledLeads: the deals still at stage Lead created strictly
      before `now` minus the unhandled-lead threshold, in input order. */
  function UnhandledLeads(deals: seq<Deal>, now: Millis): (r: seq<Deal>)
    ensures IsSubsequence(r, deals)
    ensures forall d :: d in r <==>
      d in deals && d.pipelineStage == Lead && d.createdDate < now - 48 * 3_600_000
    ensures |r| == Count(UnhandledAt(now), deals)
  {
    Filter(UnhandledAt(now), deals)
  }

  // ---------------------------------------------------------------------------
  // Quick wins

  predicate Ascending(s: seq<real>) {
    forall i, j :: 0 <= i < j < |s| ==> s[i] <= s[j]
  }

  function Insert(x: real, s: seq<real>): (r: seq<real>)
    requires Ascending(s)
    ensures |r| == |s| + 1
    ensures Ascending(r)
    ensures multiset(r) == multiset(s) + multiset{x}
  {
    if |s| == 0 || x <= s[0] then [x] + s
    else
      assert s == [s[0]] + s[1..];
      var t := Insert(x, s[1..]);
      assert forall k :: 0 <= k < |t| ==> s[0] <= t[k] by {
        forall k | 0 <= k < |t|
          ensures s[0] <= t[k]
        {
          assert t[k] in multiset(t);
          if t[k] != x {
            assert t[k] in multiset(s[1..]);
          }
        }
      }
      [s[0]] + t
  }

  /** The values in ascending order (the specification of the sort). */
  function SortedAscending(s: seq<real>): (r: seq<real>)
    ensures |r| == |s|
    ensures Ascending(r)
    ensures multiset(r) == multiset(s)
  {
    if |s| == 0 then []
    else
      assert s == [s[0]] + s[1..];
      Insert(s[0], SortedAscending(s[1..]))
  }

  /** There is only one ascending arrangement of a multiset of values. */
  lemma {:induction false} AscendingUnique(a: seq<real>, b: seq<real>)
    requires Ascending(a) && Ascending(b)
    requires multiset(a) == multiset(b)
    ensures a == b
    decreases |a|
  {
    if |a| == 0 {
      assert |b| == |multiset(b)| == 0;
    } else {
      AscendingHeads(a, b);
      DropHead(a);
      DropHead(b);
      AscendingUnique(a[1..], b[1..]);
      SameHeadSameTail(a, b);
    }
  }

  lemma SameHeadSameTail(a: seq<real>, b: seq<real>)
    requires |a| == |b| > 0 && a[0] == b[0] && a[1..] == b[1..]
    ensures a == b
  {
    assert a == [a[0]] + a[1..] && b == [b[0]] + b[1..];
  }

  /** Two ascending arrangements of the same values have the same length and
      start with the same (least) value. */
  lemma AscendingHeads(a: seq<real>, b: seq<real>)
    requires Ascending(a) && Ascending(b) && |a| > 0
    requires multiset(a) == multiset(b)
    ensures |b| == |a| && a[0] == b[0]
  {
    assert |b| == |multiset(b)| == |multiset(a)| == |a|;
    assert a[0] in multiset(b) && b[0] in multiset(a);
    var i :| 0 <= i < |b| && b[i] == a[0];
    var j :| 0 <= j < |a| && a[j] == b[0];
    assert b[0] <= a[0] && a[0] <= b[0];
  }

  /** Dropping the first value keeps the rest ascending, with the rest of
      the values. */
  lemma DropHead(s: seq<real>)
    requires Ascending(s) && |s| > 0
    ensures Ascending(s[1..])
    ensures multiset(s[1..]) == multiset(s) - multiset{s[0]}
  {
    assert s == [s[0]] + s[1..];
  }

  predicate IsPositive(v: real) {
    v > 0.0
  }

  /** `deals.map((d) => d.dealValue)`. */
  function DealValues(deals: seq<Deal>): (r: seq<real>)
    ensures |r| == |deals|
    ensures forall i :: 0 <= i < |deals| ==> r[i] == deals[i].dealValue
  {
    seq(|deals|, i requires 0 <= i < |deals| => deals[i].dealValue)
  }

  /** The positive deal values, in input order and with repeats: a
      subsequence of the values holding every positive one. */
  function PositiveValues(deals: seq<Deal>): (r: seq<real>)
    ensures forall v :: v in r ==> v > 0.0
    ensures forall d :: d in deals && d.dealValue > 0.0 ==> d.dealValue in r
    ensures IsSubsequence(r, DealValues(deals))
    ensures |r| == Count(IsPositive, DealValues(deals))
  {
    var values := DealValues(deals);
    assert forall d :: d in deals ==> d.dealValue in values by {
      forall d | d in deals
        ensures d.dealValue in values
      {
        var i :| 0 <= i < |deals| && deals[i] == d;
        assert values[i] == d.dealValue;
      }
    }
    Filter(IsPositive, values)
  }

  /** The element at index floor(n/2) of the ascending values (the upper
      median), or 0 when there are none. */
  function UpperMedian(values: seq<real>): (m: real)
    ensures |values| == 0 ==> m == 0.0
    ensures |values| > 0 ==> m in values
  {
    if |values| == 0 then 0.0
    else
      var sorted := SortedAscending(values);
      assert sorted[|values| / 2] in multiset(values);
      sorted[|values| / 2]
  }

  function Below(m: real): real -> bool {
    (v: real) => v < m
  }

  function AtMost(m: real): real -> bool {
    (v: real) => v <= m
  }

  /** In ascending values, fewer than `h + 1` lie strictly below the one at
      index `h`, and at least `h + 1` lie at or below it. */
  lemma {:induction false} CountAroundSortedIndex(sorted: seq<real>, h: nat)
    requires Ascending(sorted) && h < |sorted|
    ensures Count(Below(sorted[h]), sorted) <= h
    ensures Count(AtMost(sorted[h]), sorted) >= h + 1
  {
    var m := sorted[h];
    var lower, upper := sorted[..h], sorted[h..];
    assert sorted == lower + upper;
    assert forall k :: 0 <= k < |upper| ==> !Below(m)(upper[k]) by {
      forall k | 0 <= k < |upper|
        ensures !Below(m)(upper[k])
      {
        assert upper[k] == sorted[h + k];
      }
    }
    CountAppend(Below(m), lower, upper);
    CountNone(Below(m), upper);
    var lower', upper' := sorted[..h + 1], sorted[h + 1..];
    assert sorted == lower' + upper';
    assert forall k :: 0 <= k < |lower'| ==> AtMost(m)(lower'[k]) by {
      forall k | 0 <= k < |lower'|
        ensures AtMost(m)(lower'[k])
      {
        assert lower'[k] == sorted[k];
      }
    }
    CountAppend(AtMost(m), lower', upper');
    CountAll(AtMost(m), lower');
  }

  /** The upper median is one of the values; at most floor(n/2) of the values
      lie strictly below it, and more than floor(n/2) lie at or below it. */
  lemma UpperMedianRank(values: seq<real>)
    requires |values| > 0
    ensures UpperMedian(values) in values
    ensures Count(Below(UpperMedian(values)), values) <= |values| / 2
    ensures Count(AtMost(UpperMedian(values)), values) >= |values| / 2 + 1
  {
    var sorted := SortedAscending(values);
    var m := sorted[|values| / 2];
    assert m in multiset(sorted);
    CountAroundSortedIndex(sorted, |values| / 2);
    CountPermutation(Below(m), values, sorted);
    CountPermutation(AtMost(m), values, sorted);
  }

  predicate IsLateStage(d: Deal) {
    d.pipelineStage == Negotiation || d.pipelineStage == ProposalSent
  }

  function LateAndAtLeast(median: real): Deal -> bool {
    (d: Deal) => IsLateStage(d) && d.dealValue >= median
  }

  /** The Negotiation and Proposal Sent deals worth at least `median`, in input order. */
  function LateDealsAtLeast(deals: seq<Deal>, median: real): (r: seq<Deal>)
    ensures IsSubsequence(r, deals)
    ensures forall d :: d in r <==> d in deals && IsLateStage(d) && d.dealValue >= median
    ensures |r| == Count(LateAndAtLeast(median), deals)
  {
    Filter(LateAndAtLeast(median), deals)
  }

  /** getQuickWins: sorts the positive deal values ascending in a local array,
      takes the upper median (0 when there is no positive value) and keeps the
      Negotiation and Proposal Sent deals worth at least that much. */
  method QuickWins(deals: seq<Deal>) returns (r: seq<Deal>)
    ensures r == LateDealsAtLeast(deals, UpperMedian(PositiveValues(deals)))
  {
    var values := PositiveValues(deals);
    var median := 0.0;
    if |values| > 0 {
      var a := new real[|values|](i requires 0 <= i < |values| => values[i]);
      assert a[..] == values;
      SortByKey(a, (v: real) => v);
      AscendingUnique(a[..], SortedAscending(values));
      median := a[a.Length / 2];
    }
    r := LateDealsAtLeast(deals, median);
  }

  /** A sample deal at a given stage and value, other fields empty. */
  function SampleDeal(id: string, stage: CanonicalStage, value: real): Deal {
    Deal(id, 0, "", "", "", "", "", "", "", "", "", "", value, stage, 0, 0, [])
  }

  predicate IsSample(deals: seq<Deal>) {
    && |deals| == 3
    && deals[0].dealValue == 100.0 && deals[1].dealValue == 200.0 && deals[2].dealValue == 300.0
    && (forall i :: 0 <= i < 3 ==> deals[i].pipelineStage == Negotiation)
  }

  lemma SampleValues(deals: seq<Deal>)
    requires IsSample(deals)
    ensures PositiveValues(deals) == [100.0, 200.0, 300.0]
  {
    var values := seq(3, i requires 0 <= i < 3 => deals[i].dealValue);
    assert values == [100.0, 200.0, 300.0];
    assert values[1..] == [200.0, 300.0] && values[2..] == [300.0];
    assert Filter(IsPositive, [300.0][1..]) == [];
    assert Filter(IsPositive, values[2..]) == [300.0];
    assert Filter(IsPositive, values[1..]) == [200.0, 300.0];
  }

  /** For values already in ascending order the upper median is the one at
      index floor(n/2). */
  lemma UpperMedianOfAscending(values: seq<real>)
    requires Ascending(values) && |values| > 0
    ensures UpperMedian(values) == values[|values| / 2]
  {
    AscendingUnique(values, SortedAscending(values));
  }

  /** Values 100, 200 and 300 in Negotiation: the median is 200 (index
      floor(3/2) = 1), so the deals worth 200 and 300 are quick wins. */
  lemma QuickWinsMedianExample(deals: seq<Deal>)
    requires IsSample(deals)
    ensures UpperMedian(PositiveValues(deals)) == 200.0
    ensures LateDealsAtLeast(deals, UpperMedian(PositiveValues(deals))) == deals[1..]
  {
    SampleMedian(deals);
    SampleLateDeals(deals);
  }

  lemma SampleMedian(deals: seq<Deal>)
    requires IsSample(deals)
    ensures UpperMedian(PositiveValues(deals)) == 200.0
  {
    SampleValues(deals);
    UpperMedianOfAscending(PositiveValues(deals));
  }

  lemma SampleLateDeals(deals: seq<Deal>)
    requires IsSample(deals)
    ensures LateDealsAtLeast(deals, 200.0) == deals[1..]
  {
    var p := LateAndAtLeast(200.0);
    assert deals[2..][1..] == [];
    assert Filter(p, deals[2..]) == deals[2..];
    assert deals[1..][1..] == deals[2..];
    assert Filter(p, deals[1..]) == deals[1..];
  }

  // ---------------------------------------------------------------------------
  // Conversion rate

  lemma ClosedIsWonPlusLost(deals: seq<Deal>)
    ensures Count(IsClosedDeal, deals) == |WonDeals(deals)| + |LostDeals(deals)|
  {
    CountSplit(IsWonDeal, IsLostDeal, IsClosedDeal, deals);
  }

  lemma RatioInUnitInterval(a: nat, b: nat)
    requires a <= b && 0 < b
    ensures 0.0 <= a as real / b as real <= 1.0
    ensures (a as real / b as real) * b as real == a as real
  {
  }

  /** getConversionRate: won / (won + lost), and 0 when no deal is closed. */
  function ConversionRate(deals: seq<Deal>): (r: real)
    ensures 0.0 <= r <= 1.0
    ensures var won, lost := |WonDeals(deals)|, |LostDeals(deals)|;
      r == if won + lost == 0 then 0.0 else won as real / (won + lost) as real
  {
    var closed := |Filter(IsClosedDeal, deals)|;
    var won := |WonDeals(deals)|;
    ClosedIsWonPlusLost(deals);
    if closed == 0 then 0.0
    else
      RatioInUnitInterval(won, closed);
      won as real / closed as real
  }

  /** A Lead, a Closed Won and a Closed Lost deal fall one into each group. */
  lemma ThreeRowGroups(deals: seq<Deal>)
    requires |deals| == 3
    requires deals[0].pipelineStage == Lead && deals[1].pipelineStage == ClosedWon
    requires deals[2].pipelineStage == ClosedLost
    ensures OpenDeals(deals) == [deals[0]]
    ensures WonDeals(deals) == [deals[1]] && LostDeals(deals) == [deals[2]]
  {
    var last := deals[2..];
    var tail := deals[1..];
    assert last == [deals[2]] && tail[1..] == last;
    assert Filter(IsOpenDeal, last) == [] && Filter(IsWonDeal, last) == [];
    assert Filter(IsLostDeal, last) == [deals[2]];
    assert Filter(IsOpenDeal, tail) == [] && Filter(IsWonDeal, tail) == [deals[1]];
    assert Filter(IsLostDeal, tail) == [deals[2]];
  }

  /** One Lead worth nothing, one Closed Won and one Closed Lost: no open
      value is left in the pipeline, one deal is won and half the closed
      deals converted. */
  lemma ThreeRowScenario(deals: seq<Deal>)
    requires |deals| == 3 && deals[0].dealValue == 0.0
    requires deals[0].pipelineStage == Lead && deals[1].pipelineStage == ClosedWon
    requires deals[2].pipelineStage == ClosedLost
    ensures GrossPipe(deals) == 0.0 && |WonDeals(deals)| == 1 && ConversionRate(deals) == 0.5
  {
    ThreeRowGroups(deals);
    assert Sum(DealValue, [deals[0]]) == DealValue(deals[0]) + Sum(DealValue, []);
  }

  // ---------------------------------------------------------------------------
  // Per-stage breakdown

  datatype StageSummary = StageSummary(stage: Stage, count: nat, value: real)

  function SummaryValue(s: StageSummary): real {
    s.value
  }

  function SummaryCount(s: StageSummary): real {
    s.count as real
  }

  /** getPipelineByStage: for each open stage in OPEN_STAGES order, how many
      deals are at it and their total value (zero-count stages included). */
  function PipelineByStage(deals: seq<Deal>): (r: seq<StageSummary>)
    ensures |r| == |OpenStages| == 5
    ensures forall k :: 0 <= k < |r| ==> r[k].stage == OpenStages[k]
    ensures forall k :: 0 <= k < |r| ==>
      r[k].count == |Filter(AtStage(OpenStages[k]), deals)|
      && r[k].value == Sum(DealValue, Filter(AtStage(OpenStages[k]), deals))
  {
    seq(|OpenStages|, k requires 0 <= k < |OpenStages| =>
      var atStage := Filter(AtStage(OpenStages[k]), deals);
      StageSummary(OpenStages[k], |atStage|, Sum(DealValue, atStage)))
  }

  lemma {:induction false} StageValueTotals(deals: seq<Deal>)
    ensures Sum(DealValue, Filter(AtStage(Lead), deals)) + Sum(DealValue, Filter(AtStage(Qualification), deals))
            + Sum(DealValue, Filter(AtStage(Discovery), deals)) + Sum(DealValue, Filter(AtStage(ProposalSent), deals))
            + Sum(DealValue, Filter(AtStage(Negotiation), deals))
            == GrossPipe(deals)
  {
    if |deals| > 0 {
      StageValueTotals(deals[1..]);
    }
  }

  lemma {:induction false} StageCountTotals(deals: seq<Deal>)
    ensures |Filter(AtStage(Lead), deals)| + |Filter(AtStage(Qualification), deals)|
            + |Filter(AtStage(Discovery), deals)| + |Filter(AtStage(ProposalSent), deals)|
            + |Filter(AtStage(Negotiation), deals)|
            == |OpenDeals(deals)|
  {
    if |deals| > 0 {
      StageCountTotals(deals[1..]);
    }
  }

  lemma SumOfFive<T>(f: T -> real, s: seq<T>)
    requires |s| == 5
    ensures Sum(f, s) == f(s[0]) + f(s[1]) + f(s[2]) + f(s[3]) + f(s[4])
  {
    var t1 := s[1..];
    var t2 := t1[1..];
    var t3 := t2[1..];
    var t4 := t3[1..];
    assert t4[1..] == [];
    assert Sum(f, t4) == f(s[4]);
    assert Sum(f, t3) == f(s[3]) + f(s[4]);
  }

  lemma PipelineByStageValueTotal(deals: seq<Deal>)
    ensures Sum(SummaryValue, PipelineByStage(deals)) == GrossPipe(deals)
  {
    StageValueTotals(deals);
    SumOfFive(SummaryValue, PipelineByStage(deals));
  }

  lemma PipelineByStageCountTotal(deals: seq<Deal>)
    ensures Sum(SummaryCount, PipelineByStage(deals)) == |OpenDeals(deals)| as real
  {
    StageCountTotals(deals);
    SumOfFive(SummaryCount, PipelineByStage(deals));
  }

  /** The per-stage values add up to the gross pipeline and the per-stage
      counts to the number of open deals. */
  lemma PipelineByStageTotals(deals: seq<Deal>)
    ensures Sum(SummaryValue, PipelineByStage(deals)) == GrossPipe(deals)
    ensures Sum(SummaryCount, PipelineByStage(deals)) == |OpenDeals(deals)| as real
  {
    PipelineByStageValueTotal(deals);
    PipelineByStageCountTotal(deals);
  }

  // ---------------------------------------------------------------------------
  // Lead sources

  datatype SourceCount = SourceCount(source: string, count: nat)

  function CountOf(e: SourceCount): real {
    e.count as real
  }

  /** How many deals name `source` as their lead source (exact string match). */
  function CountSource(deals: seq<Deal>, source: string): nat {
    if |deals| == 0 then 0
    else CountSource(deals[..|deals| - 1], source)
         + (if deals[|deals| - 1].leadSource == source then 1 else 0)
  }

  lemma {:induction false} CountSourcePresent(deals: seq<Deal>, d: Deal)
    requires d in deals
    ensures CountSource(deals, d.leadSource) >= 1
  {
    var last := deals[|deals| - 1];
    if last != d {
      assert deals == deals[..|deals| - 1] + [last];
      CountSourcePresent(deals[..|deals| - 1], d);
    }
  }

  /** The entries of a `Map` in insertion order `keys`. */
  function Entries(keys: seq<string>, m: map<string, nat>): (r: seq<SourceCount>)
    requires forall k :: k in keys ==> k in m
    ensures |r| == |keys|
    ensures forall i :: 0 <= i < |r| ==> r[i] == SourceCount(keys[i], m[keys[i]])
  {
    seq(|keys|, i requires 0 <= i < |keys| => SourceCount(keys[i], m[keys[i]]))
  }

  lemma {:induction false} SumUpdate<T>(f: T -> real, s: seq<T>, k: nat, x: T)
    requires k < |s|
    ensures Sum(f, s[k := x]) == Sum(f, s) - f(s[k]) + f(x)
  {
    if k > 0 {
      assert s[k := x][1..] == s[1..][k - 1 := x];
      SumUpdate(f, s[1..], k - 1, x);
    }
  }

  /** What a tally of lead sources promises: one entry per source that some
      deal names, holding the number of deals that name it. */
  ghost predicate IsSourceTally(deals: seq<Deal>, r: seq<SourceCount>) {
    && (forall i :: 0 <= i < |r| ==> r[i].count == CountSource(deals, r[i].source) && r[i].count >= 1)
    && (forall d :: d in deals ==> exists i :: 0 <= i < |r| && r[i].source == d.leadSource)
    && (forall i, j :: 0 <= i < j < |r| ==> r[i].source != r[j].source)
    && Sum(CountOf, r) == |deals| as real
  }

  lemma CountSourceStep(deals: seq<Deal>, i: nat)
    requires i < |deals|
    ensures forall s ::
      CountSource(deals[..i + 1], s) == CountSource(deals[..i], s) + (if deals[i].leadSource == s then 1 else 0)
  {
    assert deals[..i + 1][..i] == deals[..i];
  }

  /** The state of the Map after some deals: `keys` in insertion order, one
      per source seen, each mapped to its count so far. */
  ghost predicate MapTallies(seen: seq<Deal>, m: map<string, nat>, keys: seq<string>) {
    && (forall s :: s in m <==> s in keys)
    && (forall p, q :: 0 <= p < q < |keys| ==> keys[p] != keys[q])
    && (forall s :: s in m ==> m[s] == CountSource(seen, s) && m[s] >= 1)
    && (forall s :: s !in m ==> CountSource(seen, s) == 0)
    && Sum(CountOf, Entries(keys, m)) == |seen| as real
  }

  /** `map.set(source, map.get(source) + 1)` for a source already in the Map. */
  lemma MapTalliesBump(deals: seq<Deal>, i: nat, m: map<string, nat>, keys: seq<string>)
    requires i < |deals| && deals[i].leadSource in m
    requires MapTallies(deals[..i], m, keys)
    ensures MapTallies(deals[..i + 1], m[deals[i].leadSource := m[deals[i].leadSource] + 1], keys)
  {
    var s := deals[i].leadSource;
    CountSourceStep(deals, i);
    var k :| 0 <= k < |keys| && keys[k] == s;
    EntriesBump(keys, m, k);
  }

  /** Adding one to the count of a key adds one to the total of the entries. */
  lemma EntriesBump(keys: seq<string>, m: map<string, nat>, k: nat)
    requires k < |keys| && forall s :: s in keys ==> s in m
    requires forall p, q :: 0 <= p < q < |keys| ==> keys[p] != keys[q]
    ensures Sum(CountOf, Entries(keys, m[keys[k] := m[keys[k]] + 1]))
            == Sum(CountOf, Entries(keys, m)) + 1.0
  {
    var s := keys[k];
    var before := Entries(keys, m);
    var m' := m[s := m[s] + 1];
    SumUpdate(CountOf, before, k, SourceCount(s, m[s] + 1));
    assert Entries(keys, m') == before[k := SourceCount(s, m'[s])];
  }

  /** `map.set(source, 0 + 1)` for a new source, which joins the insertion order. */
  lemma MapTalliesInsert(deals: seq<Deal>, i: nat, m: map<string, nat>, keys: seq<string>)
    requires i < |deals| && deals[i].leadSource !in m
    requires MapTallies(deals[..i], m, keys)
    ensures MapTallies(deals[..i + 1], m[deals[i].leadSource := 1], keys + [deals[i].leadSource])
  {
    var s := deals[i].leadSource;
    CountSourceStep(deals, i);
    var before := Entries(keys, m);
    var m' := m[s := 1];
    var keys' := keys + [s];
    assert Entries(keys', m') == before + [SourceCount(s, 1)];
    SumAppend(CountOf, before, [SourceCount(s, 1)]);
  }

  lemma TallyFromMap(deals: seq<Deal>, m: map<string, nat>, keys: seq<string>)
    requires MapTallies(deals, m, keys)
    ensures IsSourceTally(deals, Entries(keys, m))
  {
    var entries := Entries(keys, m);
    forall d | d in deals
      ensures exists i :: 0 <= i < |entries| && entries[i].source == d.leadSource
    {
      CountSourcePresent(deals, d);
      var k :| 0 <= k < |keys| && keys[k] == d.leadSource;
      assert entries[k].source == d.leadSource;
    }
  }

  /** The position of the first deal naming `source`, or `|deals|` when none does. */
  function FirstSeen(deals: seq<Deal>, source: string): (k: nat)
    ensures k <= |deals|
    ensures k < |deals| ==> deals[k].leadSource == source
    ensures forall j :: 0 <= j < k ==> deals[j].leadSource != source
  {
    if |deals| == 0 then 0
    else if deals[0].leadSource == source then 0
    else 1 + FirstSeen(deals[1..], source)
  }

  /** The three properties of `FirstSeen` determine it. */
  lemma FirstSeenIs(deals: seq<Deal>, source: string, k: nat)
    requires k <= |deals|
    requires k < |deals| ==> deals[k].leadSource == source
    requires forall j :: 0 <= j < k ==> deals[j].leadSource != source
    ensures FirstSeen(deals, source) == k
  {
  }

  /** One more deal seen: a source already seen keeps its first position, the
      new deal's source is first seen at `i`, and any other stays unseen. */
  lemma FirstSeenExtend(deals: seq<Deal>, i: nat, s: string)
    requires i < |deals|
    ensures FirstSeen(deals[..i + 1], s)
            == if FirstSeen(deals[..i], s) < i then FirstSeen(deals[..i], s)
               else if deals[i].leadSource == s then i else i + 1
  {
    var pre, post := deals[..i], deals[..i + 1];
    var f := FirstSeen(pre, s);
    if f < i {
      assert post[f] == pre[f];
      FirstSeenIs(post, s, f);
    } else if deals[i].leadSource == s {
      FirstSeenIs(post, s, i);
    } else {
      FirstSeenIs(post, s, i + 1);
    }
  }

  /** The Map's keys are the sources seen, in the order they were first seen. */
  ghost predicate KeysInFirstSeenOrder(seen: seq<Deal>, keys: seq<string>) {
    && (forall s :: s in keys ==> FirstSeen(seen, s) < |seen|)
    && (forall s :: s !in keys ==> FirstSeen(seen, s) == |seen|)
    && (forall p, q :: 0 <= p < q < |keys| ==> FirstSeen(seen, keys[p]) < FirstSeen(seen, keys[q]))
  }

  lemma KeysInFirstSeenOrderStep(deals: seq<Deal>, i: nat, keys: seq<string>)
    requires i < |deals|
    requires KeysInFirstSeenOrder(deals[..i], keys)
    ensures var s := deals[i].leadSource;
      KeysInFirstSeenOrder(deals[..i + 1], if s in keys then keys else keys + [s])
  {
    forall t
      ensures FirstSeen(deals[..i + 1], t)
              == if FirstSeen(deals[..i], t) < i then FirstSeen(deals[..i], t)
                 else if deals[i].leadSource == t then i else i + 1
    {
      FirstSeenExtend(deals, i, t);
    }
  }

  /** The `forEach` that fills the Map: `keys` is the Map's insertion order,
      which is the order in which the sources are first seen. */
  method CountBySource(deals: seq<Deal>) returns (m: map<string, nat>, keys: seq<string>)
    ensures forall s :: s in m <==> s in keys
    ensures forall s :: s in m ==> m[s] == CountSource(deals, s)
    ensures IsSourceTally(deals, Entries(keys, m))
    ensures forall s :: s in keys ==> FirstSeen(deals, s) < |deals|
    ensures forall p, q :: 0 <= p < q < |keys| ==> FirstSeen(deals, keys[p]) < FirstSeen(deals, keys[q])
  {
    m, keys := map[], [];
    var i := 0;
    while i < |deals|
      invariant 0 <= i <= |deals|
      invariant MapTallies(deals[..i], m, keys)
      invariant KeysInFirstSeenOrder(deals[..i], keys)
    {
      var s := deals[i].leadSource;
      var prior := if s in m then m[s] else 0;
      KeysInFirstSeenOrderStep(deals, i, keys);
      if s in m {
        MapTalliesBump(deals, i, m, keys);
      } else {
        MapTalliesInsert(deals, i, m, keys);
        keys := keys + [s];
      }
      m := m[s := prior + 1];
      i := i + 1;
    }
    assert deals[..i] == deals;
    TallyFromMap(deals, m, keys);
  }

  /** Reordering a tally leaves it a tally. */
  lemma PermutedTally(deals: seq<Deal>, entries: seq<SourceCount>, r: seq<SourceCount>)
    requires IsSourceTally(deals, entries)
    requires multiset(r) == multiset(entries)
    ensures IsSourceTally(deals, r)
  {
    SumPermutation(CountOf, r, entries);
    forall i | 0 <= i < |r|
      ensures r[i].count == CountSource(deals, r[i].source) && r[i].count >= 1
    {
      assert r[i] in multiset(entries);
    }
    forall d | d in deals
      ensures exists i :: 0 <= i < |r| && r[i].source == d.leadSource
    {
      var k :| 0 <= k < |entries| && entries[k].source == d.leadSource;
      assert entries[k] in multiset(r);
    }
    forall i, j | 0 <= i < j < |r|
      ensures r[i].source != r[j].source
    {
      if r[i].source == r[j].source {
        assert r[i] in multiset(entries) && r[j] in multiset(entries);
        assert r[i] == r[j];
        TwoPositions(r, i, j);
        DistinctOnce(entries, r[i]);
      }
    }
  }

  /** The order of the ranking as one number: larger counts first, and among
      equal counts the source seen first. A source's first position is below
      `|deals| + 1`, so it never outweighs a difference in count. */
  function RankKey(deals: seq<Deal>): SourceCount -> real {
    (e: SourceCount) => (FirstSeen(deals, e.source) - e.count * (|deals| + 1)) as real
  }

  /** Comparing rank keys compares counts first, then first positions. */
  lemma RankOrder(ci: int, cj: int, fi: int, fj: int, b: int)
    requires 0 <= fi < b && 0 <= fj < b
    requires fi - ci * b <= fj - cj * b
    ensures ci > cj || (ci == cj && fi <= fj)
  {
    if ci < cj {
      MulGap(ci, cj, b);
      assert false;
    }
  }

  /** Products by a non-negative `b` at least `b` apart. */
  lemma {:induction false} MulGap(lo: int, hi: int, b: int)
    requires lo < hi && b >= 0
    ensures hi * b - lo * b >= b
    decreases hi - lo
  {
    if hi - lo > 1 {
      MulGap(lo, hi - 1, b);
      assert hi * b == (hi - 1) * b + b;
    }
  }

  /** getLeadsBySource: counts the deals per lead source in a Map, then sorts
      the entries by count, largest first. The sort is stable and the Map
      iterates in insertion order, so sources with equal counts stay in the
      order they were first seen. */
  method LeadsBySource(deals: seq<Deal>) returns (r: seq<SourceCount>)
    ensures forall i :: 0 <= i < |r| ==> r[i].count == CountSource(deals, r[i].source) && r[i].count >= 1
    ensures forall d :: d in deals ==> exists i :: 0 <= i < |r| && r[i].source == d.leadSource
    ensures forall i, j :: 0 <= i < j < |r| ==> r[i].source != r[j].source
    ensures forall i, j :: 0 <= i < j < |r| ==>
      || r[i].count > r[j].count
      || (r[i].count == r[j].count && FirstSeen(deals, r[i].source) < FirstSeen(deals, r[j].source))
    ensures Sum(CountOf, r) == |deals| as real
  {
    var m, keys := CountBySource(deals);
    var entries := Entries(keys, m);
    r := SortByRank(deals, entries);
    PermutedTally(deals, entries, r);
    RankedBySortKey(deals, keys, entries, r);
  }

  /** `.sort((a, b) => b.count - a.count)` on a copy of the entries, with
      ties broken by first position as a stable sort of the insertion-ordered
      entries leaves them. */
  method SortByRank(deals: seq<Deal>, entries: seq<SourceCount>) returns (r: seq<SourceCount>)
    ensures multiset(r) == multiset(entries)
    ensures SortedBy(r, RankKey(deals))
  {
    var a := new SourceCount[|entries|](k requires 0 <= k < |entries| => entries[k]);
    assert a[..] == entries;
    SortByKey(a, RankKey(deals));
    r := a[..];
  }

  /** Entries sorted by `RankKey` are ranked by count, then by first position. */
  lemma RankedBySortKey(deals: seq<Deal>, keys: seq<string>, entries: seq<SourceCount>, r: seq<SourceCount>)
    requires |entries| == |keys|
    requires forall k :: 0 <= k < |keys| ==> entries[k].source == keys[k]
    requires forall s :: s in keys ==> FirstSeen(deals, s) < |deals|
    requires multiset(r) == multiset(entries)
    requires forall i, j :: 0 <= i < j < |r| ==> r[i].source != r[j].source
    requires SortedBy(r, RankKey(deals))
    ensures forall i, j :: 0 <= i < j < |r| ==>
      || r[i].count > r[j].count
      || (r[i].count == r[j].count && FirstSeen(deals, r[i].source) < FirstSeen(deals, r[j].source))
  {
    forall i | 0 <= i < |r|
      ensures FirstSeen(deals, r[i].source) < |deals|
    {
      assert r[i] in multiset(entries);
      var k :| 0 <= k < |entries| && entries[k] == r[i];
      assert r[i].source == keys[k];
    }
    forall i, j | 0 <= i < j < |r|
      ensures || r[i].count > r[j].count
              || (r[i].count == r[j].count && FirstSeen(deals, r[i].source) < FirstSeen(deals, r[j].source))
    {
      RankPair(deals, r[i], r[j]);
    }
  }

  /** Two seen sources in rank-key order are in ranking order. */
  lemma RankPair(deals: seq<Deal>, x: SourceCount, y: SourceCount)
    requires FirstSeen(deals, x.source) < |deals| && FirstSeen(deals, y.source) < |deals|
    requires x.source != y.source
    requires RankKey(deals)(x) <= RankKey(deals)(y)
    ensures || x.count > y.count
            || (x.count == y.count && FirstSeen(deals, x.source) < FirstSeen(deals, y.source))
  {
    var fx, fy := FirstSeen(deals, x.source), FirstSeen(deals, y.source);
    RankOrder(x.count, y.count, fx, fy, |deals| + 1);
  }
}
