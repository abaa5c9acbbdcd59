/**
 * `fear_greed_index.py`: banding of the 0-100 Fear & Greed index into five
 * levels (with an analysis, an emoji and a colour per level), the trend
 * analysis over a history of index values, and the overall market sentiment
 * of `MarketSentimentAnalyzer`, which uses its own five bands.
 */
module FearGreed {
  import opened Wrappers
  import Sorting

  // ---------------------------------------------------------------------------
  // Index bands

  /** The reference partition: `(-inf, 20]`, `[21, 40]`, `[41, 60]`, `[61, 80]`, `[81, +inf)`. */
  function BandOf(value: int): (b: nat)
    ensures b < 5
    ensures b == 0 <==> value <= 20
    ensures b == 1 <==> 21 <= value <= 40
    ensures b == 2 <==> 41 <= value <= 60
    ensures b == 3 <==> 61 <= value <= 80
    ensures b == 4 <==> 81 <= value
  {
    if value <= 20 then 0 else if value <= 40 then 1 else if value <= 60 then 2 else if value <= 80 then 3 else 4
  }

  datatype IndexAnalysis = IndexAnalysis(level: string, signal: string, description: string, action: string)

  function AnalyzeIndexValue(value: int): IndexAnalysis {
    if value <= 20 then
      IndexAnalysis("극도의 공포", "강력한 매수 신호", "시장이 극도로 공포에 빠진 상태. 역발상 투자 기회", "적극적 매수 검토")
    else if value <= 40 then
      IndexAnalysis("공포", "매수 신호", "시장 심리가 부정적. 저점 매수 기회 가능성", "점진적 매수 고려")
    else if value <= 60 then
      IndexAnalysis("중립", "관망", "시장 심리가 균형잡힌 상태", "추세 관찰 후 판단")
    else if value <= 80 then
      IndexAnalysis("탐욕", "매도 검토", "시장이 과열되기 시작. 주의 필요", "일부 매도 고려")
    else
      IndexAnalysis("극도의 탐욕", "강력한 매도 신호", "시장이 극도로 과열된 상태. 고점 가능성", "적극적 매도 검토")
  }

  function GetIndexEmoji(value: int): string {
    if value <= 20 then "😱"
    else if value <= 40 then "😰"
    else if value <= 60 then "😐"
    else if value <= 80 then "😍"
    else "🤑"
  }

  function GetIndexColor(value: int): string {
    if value <= 20 then "🔴"
    else if value <= 40 then "🟠"
    else if value <= 60 then "🟡"
    else if value <= 80 then "🟢"
    else "🟣"
  }

  /**
   * The analysis, the emoji and the colour draw the same boundaries: two
   * values get the same level exactly when they get the same emoji, exactly
   * when they get the same colour, exactly when they lie in the same band.
   */
  lemma SameBoundaries(v: int, w: int)
    ensures AnalyzeIndexValue(v).level == AnalyzeIndexValue(w).level <==> BandOf(v) == BandOf(w)
    ensures GetIndexEmoji(v) == GetIndexEmoji(w) <==> BandOf(v) == BandOf(w)
    ensures GetIndexColor(v) == GetIndexColor(w) <==> BandOf(v) == BandOf(w)
    ensures AnalyzeIndexValue(v) == AnalyzeIndexValue(w) <==> BandOf(v) == BandOf(w)
  {
    if BandOf(v) != BandOf(w) {
      LevelsDistinct(v, w);
      MarkersDistinct(v, w);
    }
  }

  /** The five level names are pairwise different texts. */
  lemma LevelsDistinct(v: int, w: int)
    requires BandOf(v) != BandOf(w)
    ensures AnalyzeIndexValue(v).level != AnalyzeIndexValue(w).level
  {
    var lv, lw := AnalyzeIndexValue(v).level, AnalyzeIndexValue(w).level;
    if |lv| == |lw| { assert lv[0] != lw[0] || lv[|lv| - 1] != lw[|lw| - 1]; }
  }

  /** The five emojis, and the five colours, are pairwise different. */
  lemma MarkersDistinct(v: int, w: int)
    requires BandOf(v) != BandOf(w)
    ensures GetIndexEmoji(v) != GetIndexEmoji(w) && GetIndexColor(v) != GetIndexColor(w)
  {
    var ev, ew := GetIndexEmoji(v), GetIndexEmoji(w);
    assert ev[0] != ew[0];
    var cv, cw := GetIndexColor(v), GetIndexColor(w);
    assert cv[0] != cw[0];
  }

  /** An index reading with its textual classification. */
  datatype RawIndex = RawIndex(value: Option<int>, classification: Option<string>, timestamp: Option<int>)

  datatype IndexRecord = IndexRecord(
    value: int,
    classification: string,
    timestamp: int,
    analysis: IndexAnalysis,
    emoji: string,
    color: string)

  /** `format_index_data` on already-parsed numbers: value and timestamp default to 0, the classification to `"Unknown"`. */
  function FormatIndexData(raw: RawIndex): (r: IndexRecord)
    ensures r.analysis == AnalyzeIndexValue(r.value) && r.emoji == GetIndexEmoji(r.value)
    ensures r.color == GetIndexColor(r.value)
  {
    var value := raw.value.GetOr(0);
    IndexRecord(value, raw.classification.GetOr("Unknown"), raw.timestamp.GetOr(0),
                AnalyzeIndexValue(value), GetIndexEmoji(value), GetIndexColor(value))
  }

  /** A reading without a value is classified as 0: extreme fear. */
  lemma MissingValueIsExtremeFear(raw: RawIndex)
    requires raw.value.None?
    ensures FormatIndexData(raw).analysis.level == "극도의 공포" && FormatIndexData(raw).emoji == "😱"
  {
  }

  // ---------------------------------------------------------------------------
  // Trend analysis

  datatype IndexPoint = IndexPoint(value: int, timestamp: int)

  function TimestampKey(p: IndexPoint): real { p.timestamp as real }

  /** The history from latest to oldest: `sorted(..., key=timestamp, reverse=True)`. */
  function Ranked(history: seq<IndexPoint>): seq<IndexPoint> {
    Sorting.Sort(history, TimestampKey, true)
  }

  function MaxValue(s: seq<IndexPoint>): int
    requires s != []
  {
    if |s| == 1 then s[0].value
    else var m := MaxValue(s[1..]); if s[0].value > m then s[0].value else m
  }

  function MinValue(s: seq<IndexPoint>): int
    requires s != []
  {
    if |s| == 1 then s[0].value
    else var m := MinValue(s[1..]); if s[0].value < m then s[0].value else m
  }

  /** `max(values)` is a value of the sequence and no value exceeds it. */
  lemma {:induction false} MaxValueIsMax(s: seq<IndexPoint>)
    requires s != []
    ensures exists i :: 0 <= i < |s| && s[i].value == MaxValue(s)
    ensures forall i :: 0 <= i < |s| ==> s[i].value <= MaxValue(s)
  {
    if |s| > 1 {
      MaxValueIsMax(s[1..]);
      var j :| 0 <= j < |s[1..]| && s[1..][j].value == MaxValue(s[1..]);
      assert s[j + 1].value == MaxValue(s[1..]);
      if s[0].value > MaxValue(s[1..]) {
        assert s[0].value == MaxValue(s);
      } else {
        assert s[j + 1].value == MaxValue(s);
      }
      forall i | 0 < i < |s| ensures s[i].value <= MaxValue(s) {
        assert s[i] == s[1..][i - 1];
      }
    } else {
      assert s[0].value == MaxValue(s);
    }
  }

  lemma {:induction false} MinValueIsMin(s: seq<IndexPoint>)
    requires s != []
    ensures exists i :: 0 <= i < |s| && s[i].value == MinValue(s)
    ensures forall i :: 0 <= i < |s| ==> MinValue(s) <= s[i].value
  {
    if |s| > 1 {
      MinValueIsMin(s[1..]);
      var j :| 0 <= j < |s[1..]| && s[1..][j].value == MinValue(s[1..]);
      assert s[j + 1].value == MinValue(s[1..]);
      if s[0].value < MinValue(s[1..]) {
        assert s[0].value == MinValue(s);
      } else {
        assert s[j + 1].value == MinValue(s);
      }
      forall i | 0 < i < |s| ensures MinValue(s) <= s[i].value {
        assert s[i] == s[1..][i - 1];
      }
    } else {
      assert s[0].value == MinValue(s);
    }
  }

  /** The extremes depend only on which values occur, not on their order. */
  lemma ExtremesOfPermutation(r: seq<IndexPoint>, s: seq<IndexPoint>)
    requires r != [] && multiset(r) == multiset(s)
    ensures s != [] && MaxValue(r) == MaxValue(s) && MinValue(r) == MinValue(s)
  {
    assert s != [] by { assert |multiset(s)| == |multiset(r)|; }
    MaxValueIsMax(r); MaxValueIsMax(s); MinValueIsMin(r); MinValueIsMin(s);
    var i :| 0 <= i < |r| && r[i].value == MaxValue(r);
    assert r[i] in multiset(s);
    var j :| 0 <= j < |s| && s[j].value == MaxValue(s);
    assert s[j] in multiset(r);
    var k :| 0 <= k < |r| && r[k].value == MinValue(r);
    assert r[k] in multiset(s);
    var l :| 0 <= l < |s| && s[l].value == MinValue(s);
    assert s[l] in multiset(r);
  }

  const TrendSurgingGreed: string := "급속한 탐욕 증가"
  const TrendRisingGreed: string := "탐욕 증가"
  const TrendSideways: string := "횡보"
  const TrendRisingFear: string := "공포 증가"
  const TrendSurgingFear: string := "급속한 공포 증가"

  function TrendLabel(weeklyChange: int): string {
    if weeklyChange > 10 then TrendSurgingGreed
    else if weeklyChange > 5 then TrendRisingGreed
    else if weeklyChange > -5 then TrendSideways
    else if weeklyChange > -10 then TrendRisingFear
    else TrendSurgingFear
  }

  function StabilityLabel(volatility: int): string {
    if volatility < 20 then "안정적" else "불안정"
  }

  datatype Trend =
    | InsufficientData(trend: string, change: int)
    | TrendReport(trend: string, dailyChange: int, weeklyChange: int, volatility: int, stability: string)

  function CalculateTrendAnalysis(history: seq<IndexPoint>): Trend {
    if |history| < 2 then InsufficientData("데이터 부족", 0)
    else
      var sorted := Ranked(history);
      SortedLength(history);
      var current := sorted[0].value;
      var previous := sorted[1].value;
      var weekAgo := if |sorted| >= 7 then sorted[|sorted| - 1].value else previous;
      var volatility := MaxValue(sorted) - MinValue(sorted);
      TrendReport(TrendLabel(current - weekAgo), current - previous, current - weekAgo, volatility,
                  StabilityLabel(volatility))
  }

  lemma SortedLength(history: seq<IndexPoint>)
    ensures |Ranked(history)| == |history|
  {
    Sorting.SortIsStable(history, TimestampKey, true);
  }

  /** Fewer than two readings give the fixed "not enough data" answer, and only they do. */
  lemma TrendNeedsTwo(history: seq<IndexPoint>)
    ensures CalculateTrendAnalysis(history).InsufficientData? <==> |history| < 2
    ensures |history| < 2 ==> CalculateTrendAnalysis(history) == InsufficientData("데이터 부족", 0)
  {
  }

  /**
   * Which readings the changes compare: `current` has the latest timestamp of
   * all, `previous` the latest once `current` is set aside, and the week-ago
   * reading is the oldest when there are at least seven readings.
   */
  lemma TrendReadings(history: seq<IndexPoint>)
    requires |history| >= 2
    ensures var sorted := Ranked(history);
      && |sorted| == |history|
      && sorted[0] in history && sorted[1] in multiset(history) - multiset{sorted[0]}
      && (forall p :: p in history ==> p.timestamp <= sorted[0].timestamp)
      && (forall p :: p in multiset(history) - multiset{sorted[0]} ==> p.timestamp <= sorted[1].timestamp)
      && sorted[|sorted| - 1] in history
      && (forall p :: p in history ==> sorted[|sorted| - 1].timestamp <= p.timestamp)
      && var t := CalculateTrendAnalysis(history);
         && t.dailyChange == sorted[0].value - sorted[1].value
         && t.weeklyChange == sorted[0].value - (if |history| >= 7 then sorted[|sorted| - 1] else sorted[1]).value
  {
    var sorted := Ranked(history);
    Sorting.SortIsStable(history, TimestampKey, true);
    Sorting.FirstIsExtreme(sorted, history, TimestampKey, true);
    Sorting.SecondIsNextExtreme(sorted, history, TimestampKey, true);
    Sorting.LastIsExtreme(sorted, history, TimestampKey, true);
  }

  /** With two to six readings the weekly change is the daily change. */
  lemma ShortHistoryWeeklyIsDaily(history: seq<IndexPoint>)
    requires 2 <= |history| < 7
    ensures CalculateTrendAnalysis(history).weeklyChange == CalculateTrendAnalysis(history).dailyChange
  {
    SortedLength(history);
  }

  /** The trend label is chosen by strict thresholds on the weekly change. */
  lemma TrendBands(weeklyChange: int)
    ensures TrendLabel(weeklyChange) == TrendSurgingGreed <==> weeklyChange > 10
    ensures TrendLabel(weeklyChange) == TrendRisingGreed <==> 5 < weeklyChange <= 10
    ensures TrendLabel(weeklyChange) == TrendSideways <==> -5 < weeklyChange <= 5
    ensures TrendLabel(weeklyChange) == TrendRisingFear <==> -10 < weeklyChange <= -5
    ensures TrendLabel(weeklyChange) == TrendSurgingFear <==> weeklyChange <= -10
  {
  }

  /**
   * The volatility is the spread between the highest and the lowest reading of
   * the whole history, so it is never negative, and the history is stable
   * exactly when that spread is below 20.
   */
  lemma VolatilityMeaning(history: seq<IndexPoint>)
    requires |history| >= 2
    ensures var t := CalculateTrendAnalysis(history);
      && t.volatility == MaxValue(history) - MinValue(history)
      && t.volatility >= 0
      && (t.stability == "안정적" <==> t.volatility < 20)
  {
    Sorting.SortIsStable(history, TimestampKey, true);
    ExtremesOfPermutation(Ranked(history), history);
    MaxValueIsMax(history);
    MinValueIsMin(history);
  }

  // ---------------------------------------------------------------------------
  // Overall market sentiment

  datatype MarketVerdict = MarketVerdict(overall: string, opportunity: string, risk: string, strategy: string)

  /** The sentiment band of an index value: `(-inf, 25]`, `[26, 45]`, `[46, 55]`, `[56, 75]`, `[76, +inf)`. */
  function SentimentBand(value: int): (b: nat)
    ensures b < 5
    ensures b == 0 <==> value <= 25
    ensures b == 1 <==> 26 <= value <= 45
    ensures b == 2 <==> 46 <= value <= 55
    ensures b == 3 <==> 56 <= value <= 75
    ensures b == 4 <==> 76 <= value
  {
    if value <= 25 then 0 else if value <= 45 then 1 else if value <= 55 then 2 else if value <= 75 then 3 else 4
  }

  function VerdictFor(value: int): MarketVerdict {
    if value <= 25 then MarketVerdict("극도로 부정적", "매우 높음", "낮음", "공격적 매수")
    else if value <= 45 then MarketVerdict("부정적", "높음", "보통", "단계적 매수")
    else if value <= 55 then MarketVerdict("중립", "보통", "보통", "관망")
    else if value <= 75 then MarketVerdict("긍정적", "낮음", "높음", "부분 매도")
    else MarketVerdict("극도로 긍정적", "매우 낮음", "매우 높음", "적극적 매도")
  }

  /** `analyze_market_sentiment`: nothing without a current reading, else the verdict of its value. */
  function AnalyzeMarketSentiment(current: Option<IndexRecord>): (r: Option<MarketVerdict>)
    ensures r.None? <==> current.None?
  {
    if current.None? then None else Some(VerdictFor(current.value.value))
  }

  /** The verdicts follow the sentiment bands, and a higher index never lowers the band. */
  lemma VerdictBands(v: int, w: int)
    ensures VerdictFor(v) == VerdictFor(w) <==> SentimentBand(v) == SentimentBand(w)
    ensures v <= w ==> SentimentBand(v) <= SentimentBand(w)
  {
  }

  /** The neutral sentiment band lies inside the neutral index band. */
  lemma NeutralBandsNest(value: int)
    requires SentimentBand(value) == 2
    ensures BandOf(value) == 2
  {
  }
}
