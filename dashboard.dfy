/** The analytics view's derived values, computed from the counters and the
    trend series it is given: the latest reading (45 °C and 60 dB before any
    sample), the rising-trend watchdog, the rounded pass and reject
    percentages, the peak temperature and the rounded mean noise. Rounding is
    the round-half-up of `Math.round`, done exactly on integers. */
module Dashboard {
  import opened QcTypes
  import opened HistoryMetrics

  const DefaultTemp: int := 45
  const DefaultNoise: int := 60

  // -------------------------------------------------------------- rounding

  /** The integer nearest to n / d, halves rounded up. */
  function RoundDiv(n: int, d: int): (r: int)
    requires d > 0
    ensures 2 * r * d - d <= 2 * n < 2 * r * d + d
  {
    var q := (2 * n + d) / (2 * d);
    assert 2 * n + d == q * (2 * d) + (2 * n + d) % (2 * d);
    assert 2 * q * d == q * (2 * d);
    q
  }

  lemma MulLe(a: int, b: int, d: int)
    requires a <= b && d > 0
    ensures a * d <= b * d
  {
  }

  /** For a < b, the doubled products 2·a·d and 2·b·d are at least 2·d apart. */
  lemma MulStep(a: int, b: int, d: int)
    requires a < b && d > 0
    ensures 2 * a * d + 2 * d <= 2 * b * d
  {
    MulLe(a + 1, b, d);
    assert (a + 1) * d == a * d + d;
    assert 2 * a * d == 2 * (a * d) && 2 * b * d == 2 * (b * d);
  }

  /** Only one integer lies that close to n / d. */
  lemma RoundDivUnique(n: int, d: int, r: int)
    requires d > 0
    requires 2 * r * d - d <= 2 * n < 2 * r * d + d
    ensures r == RoundDiv(n, d)
  {
    var q := RoundDiv(n, d);
    if r < q {
      MulStep(r, q, d);
    } else if r > q {
      MulStep(q, r, d);
    }
  }

  /** A numerator between lo·d and hi·d rounds to a value between lo and hi. */
  lemma RoundDivBetween(n: int, d: int, lo: int, hi: int)
    requires d > 0 && lo * d <= n <= hi * d
    ensures lo <= RoundDiv(n, d) <= hi
  {
    var r := RoundDiv(n, d);
    assert 2 * lo * d == 2 * (lo * d) && 2 * hi * d == 2 * (hi * d);
    if r < lo {
      MulStep(r, lo, d);
    } else if r > hi {
      MulStep(hi, r, d);
    }
  }

  // ------------------------------------------------------- latest reading

  function LastTemp(s: seq<TrendPoint>): (t: int)
    ensures |s| > 0 ==> t == s[|s| - 1].temp
    ensures |s| == 0 ==> t == DefaultTemp
  {
    if |s| > 0 then s[|s| - 1].temp else DefaultTemp
  }

  function LastNoise(s: seq<TrendPoint>): (n: int)
    ensures |s| > 0 ==> n == s[|s| - 1].noise
    ensures |s| == 0 ==> n == DefaultNoise
  {
    if |s| > 0 then s[|s| - 1].noise else DefaultNoise
  }

  /** On the page's series the latest reading is the newest record's. */
  lemma LatestReadingIsNewest(h: seq<Record>)
    ensures |h| > 0 ==> LastTemp(ChartDataTemp(h)) == h[0].temperature &&
                        LastNoise(ChartDataTemp(h)) == h[0].noiseLevel
    ensures |h| == 0 ==> LastTemp(ChartDataTemp(h)) == DefaultTemp &&
                         LastNoise(ChartDataTemp(h)) == DefaultNoise
  {
  }

  // -------------------------------------------------------------- watchdog

  /** More than three samples and the latest reading hotter than the sample
      at index length-3, two positions before it. Never rising on a short
      series, whatever its readings. */
  function IsTrendRising(s: seq<TrendPoint>): (rising: bool)
    ensures rising <==> |s| > 3 && LastTemp(s) > s[|s| - 3].temp
    ensures |s| <= 3 ==> !rising
  {
    |s| > 3 && s[|s| - 1].temp > s[|s| - 3].temp
  }

  /** On the page's series: at least four records and the newest one hotter
      than the third newest. */
  lemma TrendRisingOnHistory(h: seq<Record>)
    ensures IsTrendRising(ChartDataTemp(h)) <==> |h| > 3 && h[0].temperature > h[2].temperature
  {
  }

  function WatchdogStatus(s: seq<TrendPoint>): (status: string)
    ensures status == "Warning" <==> IsTrendRising(s)
    ensures status == "Stable" <==> !IsTrendRising(s)
  {
    if IsTrendRising(s) then "Warning" else "Stable"
  }

  // ----------------------------------------------------------- percentages

  /** `part` of `total` as a rounded percentage, 0 when there is nothing:
      the view's pass rate is Percent(passed, total), its reject rate
      Percent(rejected, total). */
  function Percent(part: int, total: int): (p: int)
    ensures total <= 0 ==> p == 0
    ensures total > 0 ==> 2 * p * total - total <= 200 * part < 2 * p * total + total
    ensures 0 <= part <= total ==> 0 <= p <= 100
  {
    if total > 0 then
      assert 0 <= part <= total ==> 0 <= RoundDiv(100 * part, total) <= 100 by {
        if 0 <= part <= total {
          RoundDivBetween(100 * part, total, 0, 100);
        }
      }
      RoundDiv(100 * part, total)
    else 0
  }

  /** Rounding read off the quotient and remainder of 2·n by 2·d. */
  lemma RoundFromQuotient(n: int, d: int, k: int, m: int)
    requires d > 0 && 2 * n == k * (2 * d) + m && 0 <= m < 2 * d
    ensures RoundDiv(n, d) == if m >= d then k + 1 else k
  {
    var p := if m >= d then k + 1 else k;
    assert 2 * p * d == p * (2 * d);
    assert (k + 1) * (2 * d) == k * (2 * d) + 2 * d;
    RoundDivUnique(n, d, p);
  }

  /** The two rounded rates add up to 100, or to 101 when the pass rate ends
      in exactly one half and both round up. */
  lemma RatesSum(passed: int, rejected: int, total: int)
    requires total > 0 && passed + rejected == total
    ensures Percent(passed, total) + Percent(rejected, total)
         == if (200 * passed) % (2 * total) == total then 101 else 100
  {
    var n := 100 * passed;
    var k := (2 * n) / (2 * total);
    var m := (2 * n) % (2 * total);
    assert 2 * n == k * (2 * total) + m;
    RoundFromQuotient(n, total, k, m);
    // 2 · (100 · rejected) == 200 · total - 2 · n
    if m == 0 {
      assert 2 * (100 * rejected) == (100 - k) * (2 * total) + 0 by {
        assert (100 - k) * (2 * total) == 200 * total - k * (2 * total);
      }
      RoundFromQuotient(100 * rejected, total, 100 - k, 0);
    } else {
      assert 2 * (100 * rejected) == (99 - k) * (2 * total) + (2 * total - m) by {
        assert (99 - k) * (2 * total) == 200 * total - k * (2 * total) - 2 * total;
      }
      RoundFromQuotient(100 * rejected, total, 99 - k, 2 * total - m);
    }
  }

  /** On the page's counters both rates are percentages. */
  lemma RatesInRange(h: seq<Record>)
    ensures var m := ComputeMetrics(h);
            0 <= Percent(m.passed, m.total) <= 100 &&
            0 <= Percent(m.rejected, m.total) <= 100 &&
            (m.total == 0 ==> Percent(m.passed, m.total) == 0 &&
                              Percent(m.rejected, m.total) == 0)
  {
  }

  // -------------------------------------------------------- peak and mean

  function MaxTemp(s: seq<TrendPoint>): (m: int)
    requires |s| > 0
    ensures forall k :: 0 <= k < |s| ==> s[k].temp <= m
    ensures exists k :: 0 <= k < |s| && s[k].temp == m
  {
    if |s| == 1 then s[0].temp
    else
      var rest := MaxTemp(s[1..]);
      assert forall k :: 1 <= k < |s| ==> s[k] == s[1..][k - 1];
      if s[0].temp >= rest then s[0].temp else rest
  }

  /** Highest temperature in the series, or the latest reading without one. */
  function PeakTemp(s: seq<TrendPoint>): (m: int)
    ensures |s| > 0 ==> (forall k :: 0 <= k < |s| ==> s[k].temp <= m) &&
                        (exists k :: 0 <= k < |s| && s[k].temp == m)
    ensures |s| == 0 ==> m == LastTemp(s) == DefaultTemp
  {
    if |s| > 0 then MaxTemp(s) else LastTemp(s)
  }

  /** Sum of the noise readings. A missing reading would count as 0; every
      sample here carries one, so this is the plain sum. */
  function SumNoise(s: seq<TrendPoint>): (total: int)
    ensures s == [] ==> total == 0
    // the fold may as well start from the oldest sample
    ensures s != [] ==> total == s[0].noise + SumNoise(s[1..])
  {
    if s == [] then 0
    else
      var init := s[..|s| - 1];
      assert init != [] ==> init[1..] == s[1..][..|s[1..]| - 1];
      SumNoise(init) + s[|s| - 1].noise
  }

  lemma {:induction false} SumNoiseBetween(s: seq<TrendPoint>, lo: int, hi: int)
    requires forall k :: 0 <= k < |s| ==> lo <= s[k].noise <= hi
    ensures lo * |s| <= SumNoise(s) <= hi * |s|
  {
    if s != [] {
      SumNoiseBetween(s[..|s| - 1], lo, hi);
      assert lo * |s| == lo * (|s| - 1) + lo;
      assert hi * |s| == hi * (|s| - 1) + hi;
    }
  }

  /** Mean noise rounded to an integer, or the latest reading without samples. */
  function AvgNoise(s: seq<TrendPoint>): (a: int)
    ensures |s| > 0 ==> 2 * a * |s| - |s| <= 2 * SumNoise(s) < 2 * a * |s| + |s|
    ensures |s| == 0 ==> a == LastNoise(s) == DefaultNoise
  {
    if |s| > 0 then RoundDiv(SumNoise(s), |s|) else LastNoise(s)
  }

  /** The mean lies within the range of the readings. */
  lemma AvgNoiseBetween(s: seq<TrendPoint>, lo: int, hi: int)
    requires |s| > 0
    requires forall k :: 0 <= k < |s| ==> lo <= s[k].noise <= hi
    ensures lo <= AvgNoise(s) <= hi
  {
    SumNoiseBetween(s, lo, hi);
    RoundDivBetween(SumNoise(s), |s|, lo, hi);
  }

  /** On the page's series the peak is the hottest of the newest ten records. */
  lemma PeakOnHistory(h: seq<Record>)
    requires |h| > 0
    ensures forall i :: 0 <= i < Min(TrendWindow, |h|) ==> h[i].temperature <= PeakTemp(ChartDataTemp(h))
    ensures exists i :: 0 <= i < Min(TrendWindow, |h|) && h[i].temperature == PeakTemp(ChartDataTemp(h))
  {
    var s := ChartDataTemp(h);
    var m := PeakTemp(s);
    var w := |s|;
    forall i | 0 <= i < w ensures h[i].temperature <= m {
      var k := w - 1 - i;
      assert s[k] == PointOf(h[i]) && s[k].temp <= m;
    }
    var k :| 0 <= k < w && s[k].temp == m;
    var i := w - 1 - k;
    assert s[k] == PointOf(h[i]);
    assert h[i].temperature == m;
  }
}
