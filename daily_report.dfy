/**
 * The arithmetic of the daily report (model/report/daily_report.rs): the
 * per-index statistics with their status, and the summary over all indices.
 */
module DailyReport {

  const I64_LIMIT: int := 0x8000_0000_0000_0000
  const USIZE_LIMIT: int := 0x1_0000_0000_0000_0000

  datatype IndexStatus = Normal | Warning | Critical

  datatype IndexDailyStats = IndexDailyStats(
    indexName: string,
    startCount: nat,
    endCount: nat,
    change: int,
    changePercentage: real,
    alertCount: nat,
    status: IndexStatus)

  datatype ReportSummary = ReportSummary(
    totalIndices: nat,
    totalDocumentsStart: nat,
    totalDocumentsEnd: nat,
    totalChange: int,
    indicesWithAlerts: nat,
    totalAlerts: nat)

  /** `n as i64` for a 64-bit `usize`: values from 2^63 up wrap to negative. */
  function UsizeAsI64(n: nat): (i: int)
    requires n < USIZE_LIMIT
    ensures -I64_LIMIT <= i < I64_LIMIT
    ensures n < I64_LIMIT ==> i == n
    ensures n >= I64_LIMIT ==> i == n - USIZE_LIMIT
  {
    if n < I64_LIMIT then n else n - USIZE_LIMIT
  }

  /** The status an alert count puts an index in. */
  function StatusOf(alertCount: nat): (s: IndexStatus)
    ensures s == Critical <==> alertCount > 10
    ensures s == Normal <==> alertCount == 0
  {
    if alertCount > 10 then Critical
    else if alertCount > 0 then Warning
    else Normal
  }

  /** Critical above 10 alerts, Warning from 1 to 10, Normal with none. */
  lemma StatusOfIff(alertCount: nat)
    ensures StatusOf(alertCount) == Critical <==> alertCount > 10
    ensures StatusOf(alertCount) == Warning <==> 1 <= alertCount <= 10
    ensures StatusOf(alertCount) == Normal <==> alertCount == 0
  {
  }

  /** More alerts never make the status milder. */
  lemma StatusMonotone(a: nat, b: nat)
    requires a <= b
    ensures StatusOf(a) == Critical ==> StatusOf(b) == Critical
    ensures StatusOf(a) == Warning ==> StatusOf(b) != Normal
  {
  }

  /** `IndexDailyStats::new` (the counts are `usize`, so below 2^64). */
  function NewStats(indexName: string, startCount: nat, endCount: nat, alertCount: nat): (s: IndexDailyStats)
    requires startCount < USIZE_LIMIT && endCount < USIZE_LIMIT
    ensures s.indexName == indexName && s.startCount == startCount
    ensures s.endCount == endCount && s.alertCount == alertCount
    ensures startCount < I64_LIMIT && endCount < I64_LIMIT ==> s.change == endCount - startCount
    ensures startCount == 0 ==> s.changePercentage == 0.0
    ensures startCount > 0 ==> s.changePercentage * startCount as real == s.change as real * 100.0
    ensures s.status == StatusOf(alertCount)
  {
    var change := UsizeAsI64(endCount) - UsizeAsI64(startCount);
    var changePercentage := if startCount > 0 then (change as real / startCount as real) * 100.0 else 0.0;
    IndexDailyStats(indexName, startCount, endCount, change, changePercentage, alertCount, StatusOf(alertCount))
  }

  /** A stat built by `new` from counts that fit in an `i64`. */
  predicate FromNew(s: IndexDailyStats) {
    && s.startCount < I64_LIMIT && s.endCount < I64_LIMIT
    && s == NewStats(s.indexName, s.startCount, s.endCount, s.alertCount)
  }

  function SumStart(stats: seq<IndexDailyStats>): nat {
    if stats == [] then 0 else stats[0].startCount + SumStart(stats[1..])
  }

  function SumEnd(stats: seq<IndexDailyStats>): nat {
    if stats == [] then 0 else stats[0].endCount + SumEnd(stats[1..])
  }

  function SumChange(stats: seq<IndexDailyStats>): int {
    if stats == [] then 0 else stats[0].change + SumChange(stats[1..])
  }

  function SumAlerts(stats: seq<IndexDailyStats>): nat {
    if stats == [] then 0 else stats[0].alertCount + SumAlerts(stats[1..])
  }

  /** `filter(|s| s.alert_count > 0).count()`. */
  function CountWithAlerts(stats: seq<IndexDailyStats>): (n: nat)
    ensures n <= |stats|
  {
    if stats == [] then 0
    else (if stats[0].alertCount > 0 then 1 else 0) + CountWithAlerts(stats[1..])
  }

  /** `ReportSummary::calculate`. */
  function Calculate(stats: seq<IndexDailyStats>): (r: ReportSummary)
    ensures r.totalIndices == |stats|
    ensures r.indicesWithAlerts <= r.totalIndices
  {
    ReportSummary(|stats|, SumStart(stats), SumEnd(stats), SumChange(stats),
                  CountWithAlerts(stats), SumAlerts(stats))
  }

  /** When every stat comes from `new`, the total change is the end total minus the start total. */
  lemma {:induction false} TotalChangeIsDifference(stats: seq<IndexDailyStats>)
    requires forall k :: 0 <= k < |stats| ==> FromNew(stats[k])
    ensures Calculate(stats).totalChange == Calculate(stats).totalDocumentsEnd - Calculate(stats).totalDocumentsStart
    decreases |stats|
  {
    if stats != [] {
      assert FromNew(stats[0]);
      assert forall k :: 0 <= k < |stats| - 1 ==> stats[1..][k] == stats[k + 1];
      TotalChangeIsDifference(stats[1..]);
    }
  }

  /** Every index with an alert contributes at least one alert to the total. */
  lemma {:induction false} AlertedIndicesAtMostAlerts(stats: seq<IndexDailyStats>)
    ensures Calculate(stats).indicesWithAlerts <= Calculate(stats).totalAlerts
    decreases |stats|
  {
    if stats != [] {
      AlertedIndicesAtMostAlerts(stats[1..]);
    }
  }

  /** No index has an alert exactly when the alert total is zero. */
  lemma {:induction false} NoAlertedIndices(stats: seq<IndexDailyStats>)
    ensures Calculate(stats).indicesWithAlerts == 0 <==> Calculate(stats).totalAlerts == 0
    decreases |stats|
  {
    if stats != [] {
      NoAlertedIndices(stats[1..]);
    }
  }

  /** The summary of two reports put together is the sum of their summaries. */
  lemma {:induction false} CalculateAppend(a: seq<IndexDailyStats>, b: seq<IndexDailyStats>)
    ensures var ra, rb, r := Calculate(a), Calculate(b), Calculate(a + b);
      && r.totalDocumentsStart == ra.totalDocumentsStart + rb.totalDocumentsStart
      && r.totalDocumentsEnd == ra.totalDocumentsEnd + rb.totalDocumentsEnd
      && r.totalChange == ra.totalChange + rb.totalChange
      && r.indicesWithAlerts == ra.indicesWithAlerts + rb.indicesWithAlerts
      && r.totalAlerts == ra.totalAlerts + rb.totalAlerts
    decreases |a|
  {
    if a == [] {
      assert a + b == b;
    } else {
      CalculateAppend(a[1..], b);
      assert (a + b)[0] == a[0];
      assert (a + b)[1..] == a[1..] + b;
    }
  }
}
