/**
 * The candle-endpoint choice shared by `fetch_ohlcv_data`
 * (`upbit_technical.py`) and `get_candles` (`upbit_chart_technical.py`):
 * `"days"` selects the daily candles, an interval starting with `"minutes"`
 * selects minute candles whose unit is the second `/`-separated field (or a
 * per-file default when there is no `/`), and anything else is unsupported.
 * Both clamp the requested candle count to 200.
 */
module CandleIntervals {
  import opened Wrappers

  /** `s.startswith(p)`. */
  predicate StartsWith(s: string, p: string) {
    |p| <= |s| && s[..|p|] == p
  }

  /** The text after the first `/` (all of `s` is dropped when there is none). */
  function DropThroughSlash(s: string): (r: string)
    ensures |r| <= |s|
  {
    if s == [] then [] else if s[0] == '/' then s[1..] else DropThroughSlash(s[1..])
  }

  /** The text before the first `/` (all of `s` when there is none). */
  function TakeUntilSlash(s: string): (r: string)
    ensures |r| <= |s| && r == s[..|r|] && '/' !in r
    ensures |r| < |s| ==> s[|r|] == '/'
  {
    if s == [] || s[0] == '/' then [] else [s[0]] + TakeUntilSlash(s[1..])
  }

  /** `s.split("/")[1]` for a string containing `/`. */
  function SecondField(s: string): string {
    TakeUntilSlash(DropThroughSlash(s))
  }

  /** The URL path of the candles an interval asks for, or `None` when it is unsupported. */
  function CandleEndpoint(baseUrl: string, interval: string, defaultUnit: string): (r: Option<string>)
    ensures r.None? <==> interval != "days" && !StartsWith(interval, "minutes")
  {
    if interval == "days" then Some(baseUrl + "/candles/days")
    else if StartsWith(interval, "minutes") then
      var unit := if '/' in interval then SecondField(interval) else defaultUnit;
      Some(baseUrl + "/candles/minutes/" + unit)
    else None
  }

  /** `min(count, 200)`. */
  function RequestCount(count: int): (r: int)
    ensures r <= 200 && r <= count && (r == count || r == 200)
  {
    if count < 200 then count else 200
  }

  lemma {:induction false} DropThroughFirstSlash(p: string, rest: string)
    requires '/' !in p
    ensures DropThroughSlash(p + "/" + rest) == rest
  {
    if p == [] {
      assert p + "/" + rest == "/" + rest;
    } else {
      assert (p + "/" + rest)[1..] == p[1..] + "/" + rest;
      DropThroughFirstSlash(p[1..], rest);
    }
  }

  lemma {:induction false} TakeWithoutSlash(s: string)
    requires '/' !in s
    ensures TakeUntilSlash(s) == s
  {
    if s != [] {
      TakeWithoutSlash(s[1..]);
      assert s == [s[0]] + s[1..];
    }
  }

  /** `"minutes/N"` names unit `N` whenever `N` itself has no `/`. */
  lemma MinutesUnit(baseUrl: string, n: string, defaultUnit: string)
    requires '/' !in n
    ensures CandleEndpoint(baseUrl, "minutes/" + n, defaultUnit) == Some(baseUrl + "/candles/minutes/" + n)
  {
    var interval := "minutes/" + n;
    assert interval == "minutes" + "/" + n;
    assert interval[..7] == "minutes";
    assert interval[7] == '/';
    DropThroughFirstSlash("minutes", n);
    TakeWithoutSlash(n);
  }

  /** A `"minutes…"` interval with no `/` falls back to the default unit. */
  lemma MinutesDefault(baseUrl: string, interval: string, defaultUnit: string)
    requires StartsWith(interval, "minutes") && '/' !in interval
    ensures CandleEndpoint(baseUrl, interval, defaultUnit) == Some(baseUrl + "/candles/minutes/" + defaultUnit)
  {
    assert interval != "days" by { assert interval[0] == 'm'; }
  }

  lemma {:induction false} TakeBeforeSlash(n: string, tail: string)
    requires '/' !in n
    ensures TakeUntilSlash(n + "/" + tail) == n
  {
    if n == [] {
      assert n + "/" + tail == "/" + tail;
    } else {
      assert (n + "/" + tail)[1..] == n[1..] + "/" + tail;
      TakeBeforeSlash(n[1..], tail);
      assert n == [n[0]] + n[1..];
    }
  }

  /** Only the unit field counts: `"minutes/N/…"` asks for unit `N`, like `"minutes/N"`. */
  lemma ExtraFieldsIgnored(baseUrl: string, n: string, tail: string, defaultUnit: string)
    requires '/' !in n
    ensures CandleEndpoint(baseUrl, "minutes/" + n + "/" + tail, defaultUnit)
            == Some(baseUrl + "/candles/minutes/" + n)
  {
    var interval := "minutes/" + n + "/" + tail;
    assert interval == "minutes" + "/" + (n + "/" + tail);
    assert interval[..7] == "minutes";
    assert interval[7] == '/';
    DropThroughFirstSlash("minutes", n + "/" + tail);
    TakeBeforeSlash(n, tail);
  }
}
