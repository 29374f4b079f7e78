/** Aggregates the dashboard recomputes from the inspection history on every
    read: the pass/reject/open-issue counts and the pass rate, the histogram of
    rejected records' first defects, and the temperature trend series. The
    history is newest-first. */
module HistoryMetrics {
  import opened QcTypes

  // ---------------------------------------------------------------- counts

  function CountPassed(h: seq<Record>): (n: nat)
    ensures n <= |h|
  {
    if h == [] then 0 else (if h[0].status == Pass then 1 else 0) + CountPassed(h[1..])
  }

  function CountRejected(h: seq<Record>): (n: nat)
    ensures n <= |h|
  {
    if h == [] then 0 else (if h[0].status == Reject then 1 else 0) + CountRejected(h[1..])
  }

  /** A record whose ticket is still open in the incident list. */
  predicate IsOpenIssue(r: Record) {
    r.status == Reject && r.ticketStatus == Open
  }

  function CountOpenIssues(h: seq<Record>): (n: nat)
    ensures n <= |h|
  {
    if h == [] then 0 else (if IsOpenIssue(h[0]) then 1 else 0) + CountOpenIssues(h[1..])
  }

  /** Every record is a pass or a reject, so "total minus passed" counts the rejects. */
  lemma {:induction false} PassedPlusRejected(h: seq<Record>)
    ensures CountPassed(h) + CountRejected(h) == |h|
  {
    if h != [] {
      PassedPlusRejected(h[1..]);
    }
  }

  lemma {:induction false} OpenIssuesAtMostRejected(h: seq<Record>)
    ensures CountOpenIssues(h) <= CountRejected(h)
  {
    if h != [] {
      OpenIssuesAtMostRejected(h[1..]);
    }
  }

  datatype Metrics = Metrics(total: nat, passed: nat, rejected: nat, openIssues: nat)

  /** The counters shown in the side bar and the metric cards. */
  function ComputeMetrics(h: seq<Record>): (m: Metrics)
    ensures m.total == |h|
    ensures m.passed == CountPassed(h)
    ensures m.rejected == CountRejected(h)
    ensures m.passed + m.rejected == m.total
    ensures m.openIssues == CountOpenIssues(h)
    ensures m.openIssues <= m.rejected
  {
    PassedPlusRejected(h);
    OpenIssuesAtMostRejected(h);
    var total := |h|;
    var passed := CountPassed(h);
    Metrics(total, passed, total - passed, CountOpenIssues(h))
  }

  /** Pass rate in percent, as an exact ratio; 0 for an empty history. */
  function PassRate(h: seq<Record>): (rate: real)
    ensures |h| == 0 ==> rate == 0.0
    ensures 0.0 <= rate <= 100.0
    ensures |h| > 0 ==> rate * (|h| as real) == 100.0 * (CountPassed(h) as real)
  {
    if |h| > 0 then (CountPassed(h) as real) / (|h| as real) * 100.0 else 0.0
  }

  // ------------------------------------------------------ defect histogram

  /** A record the histogram counts: a reject with at least one defect. */
  predicate Keyed(r: Record) {
    r.status == Reject && |r.defects| > 0
  }

  /** Number of keyed records whose first defect is `d`. */
  function CountFirstDefect(h: seq<Record>, d: string): nat {
    if h == [] then 0
    else CountFirstDefect(h[..|h| - 1], d) +
         (if Keyed(h[|h| - 1]) && h[|h| - 1].defects[0] == d then 1 else 0)
  }

  /** Number of keyed records. */
  function KeyedCount(h: seq<Record>): nat {
    if h == [] then 0
    else KeyedCount(h[..|h| - 1]) + (if Keyed(h[|h| - 1]) then 1 else 0)
  }

  predicate Distinct(keys: seq<string>) {
    forall j, k :: 0 <= j < k < |keys| ==> keys[j] != keys[k]
  }

  /** Sum of the counts listed under `keys`. */
  function SumOver(keys: seq<string>, counts: map<string, nat>): nat
    requires forall k :: k in keys ==> k in counts
  {
    if keys == [] then 0
    else SumOver(keys[..|keys| - 1], counts) + counts[keys[|keys| - 1]]
  }

  lemma {:induction false} SumOverIgnores(keys: seq<string>, counts: map<string, nat>, d: string, v: nat)
    requires forall k :: k in keys ==> k in counts
    requires d !in keys
    ensures SumOver(keys, counts[d := v]) == SumOver(keys, counts)
  {
    if keys != [] {
      SumOverIgnores(keys[..|keys| - 1], counts, d, v);
    }
  }

  lemma {:induction false} SumOverBump(keys: seq<string>, counts: map<string, nat>, d: string)
    requires forall k :: k in keys ==> k in counts
    requires Distinct(keys) && d in keys
    ensures SumOver(keys, counts[d := counts[d] + 1]) == SumOver(keys, counts) + 1
  {
    var last := keys[|keys| - 1];
    var init := keys[..|keys| - 1];
    if last == d {
      assert d !in init by {
        forall j | 0 <= j < |init| ensures init[j] != d {
          assert keys[j] != keys[|keys| - 1];
        }
      }
      SumOverIgnores(init, counts, d, counts[d] + 1);
    } else {
      assert d in init by {
        var j :| 0 <= j < |keys| && keys[j] == d;
        assert init[j] == d;
      }
      SumOverBump(init, counts, d);
    }
  }

  /** `counts` and `keys` hold the histogram of the history prefix `hp`. */
  ghost predicate Tallies(hp: seq<Record>, counts: map<string, nat>, keys: seq<string>) {
    Distinct(keys) &&
    (forall d :: d in keys <==> d in counts) &&
    (forall d :: d in counts <==> CountFirstDefect(hp, d) > 0) &&
    (forall d :: d in counts ==> counts[d] == CountFirstDefect(hp, d)) &&
    SumOver(keys, counts) == KeyedCount(hp)
  }

  /** A record the histogram skips leaves it as it is. */
  lemma TallySkip(hp: seq<Record>, r: Record, counts: map<string, nat>, keys: seq<string>)
    requires Tallies(hp, counts, keys) && !Keyed(r)
    ensures Tallies(hp + [r], counts, keys)
  {
  }

  /** A keyed record with a defect already present bumps its count. */
  lemma TallyBump(hp: seq<Record>, r: Record, counts: map<string, nat>, keys: seq<string>)
    requires Tallies(hp, counts, keys) && Keyed(r) && r.defects[0] in counts
    ensures Tallies(hp + [r], counts[r.defects[0] := counts[r.defects[0]] + 1], keys)
  {
    assert (hp + [r])[..|hp|] == hp;
    SumOverBump(keys, counts, r.defects[0]);
  }

  /** A keyed record with a new defect adds a key with count one. */
  lemma TallyInsert(hp: seq<Record>, r: Record, counts: map<string, nat>, keys: seq<string>)
    requires Tallies(hp, counts, keys) && Keyed(r) && r.defects[0] !in counts
    ensures Tallies(hp + [r], counts[r.defects[0] := 1], keys + [r.defects[0]])
  {
    var d := r.defects[0];
    assert (hp + [r])[..|hp|] == hp;
    assert (keys + [d])[..|keys|] == keys;
    SumOverIgnores(keys, counts, d, 1);
  }

  /** The defect histogram, built as the source's reduce builds it: a pass
      over the history that bumps the count of each keyed record's first
      defect in a dictionary. `keys` is the dictionary's key order (first
      insertion first), in which the chart lists the slices. */
  method DefectCounts(h: seq<Record>) returns (counts: map<string, nat>, keys: seq<string>)
    ensures Distinct(keys)
    ensures forall d :: d in keys <==> d in counts
    ensures forall d :: d in counts <==> CountFirstDefect(h, d) > 0
    ensures forall d :: d in counts ==> counts[d] == CountFirstDefect(h, d)
    ensures SumOver(keys, counts) == KeyedCount(h)
  {
    counts := map[];
    keys := [];
    var i := 0;
    while i < |h|
      invariant 0 <= i <= |h|
      invariant Tallies(h[..i], counts, keys)
    {
      var curr := h[i];
      assert h[..i + 1] == h[..i] + [curr];
      if curr.status == Reject && |curr.defects| > 0 {
        var defect := curr.defects[0];
        if defect in counts {
          TallyBump(h[..i], curr, counts, keys);
        } else {
          TallyInsert(h[..i], curr, counts, keys);
          keys := keys + [defect];
        }
        counts := counts[defect := (if defect in counts then counts[defect] else 0) + 1];
      } else {
        TallySkip(h[..i], curr, counts, keys);
      }
      i := i + 1;
    }
    assert h[..|h|] == h;
  }

  // ---------------------------------------------------------- trend series

  /** One chart sample: the capture time, temperature and noise of a record. */
  datatype TrendPoint = TrendPoint(time: string, temp: int, noise: int)

  /** The sample shows a record's capture time and both readings, and
      nothing else of it. */
  function PointOf(r: Record): (p: TrendPoint)
    ensures p.time == r.timestamp && p.temp == r.temperature && p.noise == r.noiseLevel
  {
    TrendPoint(r.timestamp, r.temperature, r.noiseLevel)
  }

  /** The samples of a newest-first slice, oldest first. */
  function OldestFirst(s: seq<Record>): (ps: seq<TrendPoint>)
    ensures |ps| == |s|
    ensures forall k :: 0 <= k < |s| ==> ps[k] == PointOf(s[|s| - 1 - k])
  {
    if s == [] then [] else OldestFirst(s[1..]) + [PointOf(s[0])]
  }

  const TrendWindow: nat := 10

  function Min(a: int, b: int): int {
    if a <= b then a else b
  }

  /** The trend chart's data: the newest ten records, in chronological order. */
  function ChartDataTemp(h: seq<Record>): (ps: seq<TrendPoint>)
    ensures |ps| == Min(TrendWindow, |h|) && |ps| <= TrendWindow
    ensures forall k :: 0 <= k < |ps| ==> ps[k] == PointOf(h[|ps| - 1 - k])
  {
    OldestFirst(h[..Min(TrendWindow, |h|)])
  }

  /** The counts move by exactly the newcomer when a record is prepended. */
  lemma PrependCounts(r: Record, h: seq<Record>)
    ensures CountPassed([r] + h) == CountPassed(h) + (if r.status == Pass then 1 else 0)
    ensures CountRejected([r] + h) == CountRejected(h) + (if r.status == Reject then 1 else 0)
    ensures CountOpenIssues([r] + h) == CountOpenIssues(h) + (if IsOpenIssue(r) then 1 else 0)
  {
  }

  /** After a prepend the newest record is the last sample of the trend. */
  lemma PrependIsLastSample(r: Record, h: seq<Record>)
    ensures var ps := ChartDataTemp([r] + h); |ps| > 0 && ps[|ps| - 1] == PointOf(r)
  {
  }
}
