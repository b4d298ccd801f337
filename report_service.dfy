/**
 * The report service (service/report_service_impl.rs): one chart of the
 * count history per configured index, the rows of the report table, the
 * report task that gathers them and sends the mail, and the scheduler loop
 * that runs that task on a cron schedule.
 *
 * The query service, the chart drawing, the HTML template and the mail
 * sender are oracles bundled in `ReportServices`; cron parsing and the next
 * fire time are supplied by the caller.
 */
module ReportService {
  import opened Wrappers
  import opened Decimal
  import opened Records
  import opened TimeUtils
  import opened ReportType
  import opened ChartService
  import opened Text
  import DailyReport

  datatype ReportError =
    | HistoryFailed(reason: string)
    | ChartRejected(chartError: ChartError)
    | DrawFailed(reason: string)
    | TemplateFailed(reason: string)
    | SendFailed(reason: string)

  datatype ReportServices = ReportServices(
    /** `get_report_infos_from_log_index(index, from, to)`: the samples of an index in a window. */
    history: (string, Instant, Instant) -> Result<seq<AlertIndex>, string>,
    /**
     * The drawing part of `generate_line_chart(title, x labels, y values,
     * path, x axis name, y axis name)`.
     */
    draw: (string, seq<string>, seq<int>, string, string, string) -> Result<(), string>,
    /**
     * `generate_daily_report_html`: the template read and filled with the
     * report date, the number of indices and the index rows.
     */
    renderHtml: (string, nat, string) -> Result<string, string>,
    /** `send_daily_report_email(subject, html, image paths)`. */
    sendReport: (string, string, seq<string>) -> Result<(), string>,
    /** The offset of the local time zone from UTC, in seconds. */
    localOffset: int)

  /** `cnt as i64` of a `usize` count. */
  function CntAsI64(n: nat): (i: int)
    ensures n < DailyReport.I64_LIMIT ==> i == n
  {
    DailyReport.UsizeAsI64(n % DailyReport.USIZE_LIMIT)
  }

  /** `format!("./pics/{}_line_chart_{}.png", hour, index_name)`. */
  function ChartPath(hour: int, indexName: string): (path: string)
    ensures |path| > 11 && path[..7] == "./pics/" && path[|path| - 4..] == ".png"
  {
    "./pics/" + IntToString(hour) + "_line_chart_" + indexName + ".png"
  }

  /** Within one cadence, distinct indices get distinct chart files. */
  lemma ChartPathInjective(hour: int, a: string, b: string)
    requires ChartPath(hour, a) == ChartPath(hour, b)
    ensures a == b
  {
    var pre := "./pics/" + IntToString(hour) + "_line_chart_";
    assert ChartPath(hour, a) == pre + a + ".png";
    assert ChartPath(hour, b) == pre + b + ".png";
    assert |a| == |b|;
    forall k | 0 <= k < |a| ensures a[k] == b[k] {
      assert a[k] == ChartPath(hour, a)[|pre| + k];
      assert b[k] == ChartPath(hour, b)[|pre| + k];
    }
  }

  /** The x labels and y values of a history, in lockstep. */
  method BuildSeries(history: seq<AlertIndex>) returns (xs: seq<string>, ys: seq<int>)
    ensures |xs| == |history| && |ys| == |history|
    ensures forall i :: 0 <= i < |history| ==> xs[i] == history[i].timestamp && ys[i] == CntAsI64(history[i].cnt)
  {
    xs, ys := [], [];
    for i := 0 to |history|
      invariant |xs| == i && |ys| == i
      invariant forall j :: 0 <= j < i ==> xs[j] == history[j].timestamp && ys[j] == CntAsI64(history[j].cnt)
    {
      xs := xs + [history[i].timestamp];
      ys := ys + [CntAsI64(history[i].cnt)];
    }
  }

  function Timestamps(history: seq<AlertIndex>): seq<string> {
    seq(|history|, i requires 0 <= i < |history| => history[i].timestamp)
  }

  function Counts(history: seq<AlertIndex>): seq<int> {
    seq(|history|, i requires 0 <= i < |history| => CntAsI64(history[i].cnt))
  }

  /** The chart title: `[{window start} ~ {report time}] {index}`, both in local time. */
  function ChartTitle(indexName: string, localTime: Instant, hour: int, svc: ReportServices): string {
    "[" + ConvertDateToStr(MinusH(localTime, hour), svc.localOffset) + " ~ "
      + ConvertDateToStr(localTime, svc.localOffset) + "] " + indexName
  }

  const X_AXIS_NAME := "timestamp"
  const Y_AXIS_NAME := "index count"

  /** Draws the history of one index, given its series, to its chart path. */
  function Draw(indexName: string, localTime: Instant, hour: int, xs: seq<string>, ys: seq<int>, svc: ReportServices)
    : Result<(), string>
  {
    svc.draw(ChartTitle(indexName, localTime, hour, svc), xs, ys, ChartPath(hour, indexName), X_AXIS_NAME, Y_AXIS_NAME)
  }

  /**
   * The reference meaning of `generate_index_history_graph`: the history of
   * the last `hour` hours up to `localTime`, drawn to the index's chart path.
   */
  function GraphOutcome(indexName: string, localTime: Instant, hour: int, svc: ReportServices)
    : (r: Result<string, ReportError>)
    ensures r.Ok? ==> r.value == ChartPath(hour, indexName)
  {
    match svc.history(indexName, MinusH(localTime, hour), localTime)
    case Err(e) => Err(HistoryFailed(e))
    case Ok(hist) =>
      var xs, ys := Timestamps(hist), Counts(hist);
      match ValidateChartInput(xs, ys)
      case Err(ce) => Err(ChartRejected(ce))
      case Ok(_) =>
        match Draw(indexName, localTime, hour, xs, ys, svc)
        case Err(e) => Err(DrawFailed(e))
        case Ok(_) => Ok(ChartPath(hour, indexName))
  }

  /** A chart needs at least one sample: an empty history is rejected before anything is drawn. */
  lemma EmptyHistoryNoChart(indexName: string, localTime: Instant, hour: int, svc: ReportServices)
    requires svc.history(indexName, MinusH(localTime, hour), localTime) == Ok([])
    ensures GraphOutcome(indexName, localTime, hour, svc) == Err(ChartRejected(EmptyData))
  {
  }

  /** A non-empty history that draws gives the chart path, whatever the window holds. */
  lemma GraphSucceeds(indexName: string, localTime: Instant, hour: int, svc: ReportServices)
    requires svc.history(indexName, MinusH(localTime, hour), localTime).Ok?
    requires svc.history(indexName, MinusH(localTime, hour), localTime).value != []
    requires var hist := svc.history(indexName, MinusH(localTime, hour), localTime).value;
      Draw(indexName, localTime, hour, Timestamps(hist), Counts(hist), svc).Ok?
    ensures GraphOutcome(indexName, localTime, hour, svc) == Ok(ChartPath(hour, indexName))
  {
  }

  /** `generate_index_history_graph`. */
  method GenerateIndexHistoryGraph(indexName: string, localTime: Instant, hour: int, svc: ReportServices)
    returns (r: Result<string, ReportError>)
    ensures r == GraphOutcome(indexName, localTime, hour, svc)
  {
    var prevUtcTime := MinusH(localTime, hour);
    var history := svc.history(indexName, prevUtcTime, localTime);
    if history.Err? {
      return Err(HistoryFailed(history.error));
    }
    var xs, ys := BuildSeries(history.value);
    assert xs == Timestamps(history.value) && ys == Counts(history.value);
    var outputPath := ChartPath(hour, indexName);
    var checked := ValidateChartInput(xs, ys);
    if checked.Err? {
      return Err(ChartRejected(checked.error));
    }
    var drawn := svc.draw(ChartTitle(indexName, localTime, hour, svc), xs, ys, outputPath, X_AXIS_NAME, Y_AXIS_NAME);
    if drawn.Err? {
      return Err(DrawFailed(drawn.error));
    }
    return Ok(outputPath);
  }

  /** The chart paths of the indices whose chart was made, in configuration order. */
  function GraphPaths(index: seq<IndexConfig>, localTime: Instant, hour: int, svc: ReportServices): (ps: seq<string>)
    ensures |ps| <= |index|
    decreases |index|
  {
    if index == [] then []
    else
      var g := GraphOutcome(index[0].indexName, localTime, hour, svc);
      (if g.Ok? then [g.value] else []) + GraphPaths(index[1..], localTime, hour, svc)
  }

  /** Every path is the chart path of a configured index whose chart was made. */
  lemma {:induction false} GraphPathsMembers(index: seq<IndexConfig>, localTime: Instant, hour: int, svc: ReportServices)
    ensures forall p :: p in GraphPaths(index, localTime, hour, svc) ==>
      exists k :: (0 <= k < |index| && p == ChartPath(hour, index[k].indexName)
        && GraphOutcome(index[k].indexName, localTime, hour, svc).Ok?)
    decreases |index|
  {
    if index != [] {
      GraphPathsMembers(index[1..], localTime, hour, svc);
      forall p | p in GraphPaths(index[1..], localTime, hour, svc)
        ensures exists k :: (0 <= k < |index| && p == ChartPath(hour, index[k].indexName)
          && GraphOutcome(index[k].indexName, localTime, hour, svc).Ok?)
      {
        var k :| 0 <= k < |index[1..]| && p == ChartPath(hour, index[1..][k].indexName)
          && GraphOutcome(index[1..][k].indexName, localTime, hour, svc).Ok?;
        assert index[1..][k] == index[k + 1];
      }
    }
  }

  /** When every chart is made there is one path per index, in configuration order. */
  lemma {:induction false} GraphPathsAll(index: seq<IndexConfig>, localTime: Instant, hour: int, svc: ReportServices)
    requires forall k :: 0 <= k < |index| ==> GraphOutcome(index[k].indexName, localTime, hour, svc).Ok?
    ensures |GraphPaths(index, localTime, hour, svc)| == |index|
    ensures forall k :: 0 <= k < |index| ==> GraphPaths(index, localTime, hour, svc)[k] == ChartPath(hour, index[k].indexName)
    decreases |index|
  {
    if index != [] {
      var tail := index[1..];
      assert forall k :: 0 <= k < |tail| ==> tail[k] == index[k + 1];
      GraphPathsAll(tail, localTime, hour, svc);
      var head := ChartPath(hour, index[0].indexName);
      var ps, rest := GraphPaths(index, localTime, hour, svc), GraphPaths(tail, localTime, hour, svc);
      assert GraphOutcome(index[0].indexName, localTime, hour, svc) == Ok(head);
      assert ps == [head] + rest;
      forall k | 0 <= k < |index| ensures ps[k] == ChartPath(hour, index[k].indexName) {
        if k > 0 {
          assert ps[k] == rest[k - 1];
        }
      }
    }
  }

  /** The opening of a table cell, indented as in the row template. */
  const CELL_OPEN: string :=
    "                    <td style=\"border: 1px solid #ddd; padding: 12px; text-align: left; background-color: #fff;\">"

  const CELL_CLOSE: string := "</td>"

  function Cell(content: string): string {
    CELL_OPEN + content + CELL_CLOSE
  }

  /** The text in front of the index name in a row. */
  const ROW_HEAD: string := "<tr>\n" + CELL_OPEN

  /** Cells on lines of their own, one per content. */
  function Cells(contents: seq<string>): string {
    if contents == [] then "" else "\n" + Cell(contents[0]) + Cells(contents[1..])
  }

  /** The text after the index name: four "-" cells, zero alerts and a normal status. */
  const ROW_TAIL: string :=
    CELL_CLOSE + Cells(["-", "-", "-", "-", "0", "✅ 정상"]) + "\n                </tr>"

  /** The table row of one index. */
  function Row(indexName: string): (row: string)
    ensures |row| == |ROW_HEAD| + |indexName| + |ROW_TAIL|
  {
    ROW_HEAD + indexName + ROW_TAIL
  }

  /** A row carries its index's name right after the fixed row head, so it can be read back. */
  lemma RowCarriesName(indexName: string)
    ensures |Row(indexName)| == |ROW_HEAD| + |indexName| + |ROW_TAIL|
    ensures Row(indexName)[..|ROW_HEAD|] == ROW_HEAD
    ensures Row(indexName)[|ROW_HEAD|..|ROW_HEAD| + |indexName|] == indexName
  {
    var r := Row(indexName);
    assert r == ROW_HEAD + indexName + ROW_TAIL;
    assert r[..|ROW_HEAD|] == ROW_HEAD;
    assert r[|ROW_HEAD|..|ROW_HEAD| + |indexName|] == indexName;
  }

  /** Rows of different indices differ. */
  lemma RowInjective(a: string, b: string)
    requires Row(a) == Row(b)
    ensures a == b
  {
    RowCarriesName(a);
    RowCarriesName(b);
  }

  /** The row of a configured index. */
  function IndexRow(config: IndexConfig): string {
    Row(config.indexName)
  }

  /** `generate_index_rows`: the rows are appended one index at a time, in configuration order. */
  method GenerateIndexRows(index: seq<IndexConfig>) returns (rows: string)
    ensures rows == ConcatMap(index, IndexRow)
  {
    rows := "";
    var i := 0;
    while i < |index|
      invariant 0 <= i <= |index|
      invariant rows + ConcatMap(index[i..], IndexRow) == ConcatMap(index, IndexRow)
    {
      assert index[i..][1..] == index[i + 1..];
      AppendAssoc(rows, IndexRow(index[i]), ConcatMap(index[i + 1..], IndexRow));
      rows := rows + IndexRow(index[i]);
      i := i + 1;
    }
    assert index[i..] == [];
  }

  /** One report row per index: the rows are at least as long as the fixed text of all rows. */
  lemma {:induction false} RowsLength(index: seq<IndexConfig>)
    ensures |ConcatMap(index, IndexRow)| >= |index| * (|ROW_HEAD| + |ROW_TAIL|)
    decreases |index|
  {
    if index != [] {
      var w := |ROW_HEAD| + |ROW_TAIL|;
      RowsLength(index[1..]);
      assert |ConcatMap(index, IndexRow)| == |IndexRow(index[0])| + |ConcatMap(index[1..], IndexRow)|;
      assert |IndexRow(index[0])| >= w;
      LengthStep(|ConcatMap(index, IndexRow)|, |IndexRow(index[0])|, |ConcatMap(index[1..], IndexRow)|, |index|, w);
    }
  }

  /** The induction step of `RowsLength`, free of the row text. */
  lemma LengthStep(total: int, first: int, rest: int, n: int, w: int)
    requires n >= 1 && total == first + rest && first >= w && rest >= (n - 1) * w
    ensures total >= n * w
  {
    assert n * w == w + (n - 1) * w;
  }

  const SUBJECT_HEAD := "[Elasticsearch] Index Report - "

  /** The subject line of a report sent at `localTime`: the fixed head, then the local time ending in `Z`. */
  function Subject(localTime: Instant, svc: ReportServices): (s: string)
    ensures |s| > |SUBJECT_HEAD| && s[..|SUBJECT_HEAD|] == SUBJECT_HEAD && s[|s| - 1] == 'Z'
  {
    SUBJECT_HEAD + ConvertDateToStr(localTime, svc.localOffset)
  }

  /** The chart loop of `report_index_cnt_task`: an index whose chart fails is skipped. */
  method GenerateGraphs(index: seq<IndexConfig>, localTime: Instant, hour: int, svc: ReportServices)
    returns (imgPaths: seq<string>)
    ensures imgPaths == GraphPaths(index, localTime, hour, svc)
  {
    imgPaths := [];
    var i := 0;
    while i < |index|
      invariant 0 <= i <= |index|
      invariant imgPaths + GraphPaths(index[i..], localTime, hour, svc) == GraphPaths(index, localTime, hour, svc)
    {
      imgPaths := CollectGraph(index, i, localTime, hour, svc, imgPaths);
      i := i + 1;
    }
    assert index[i..] == [];
  }

  /** One pass of the chart loop: the chart of index `i` is made and its path kept, or the index is skipped. */
  method CollectGraph(index: seq<IndexConfig>, i: nat, localTime: Instant, hour: int, svc: ReportServices,
                      imgPaths: seq<string>)
    returns (collected: seq<string>)
    requires i < |index|
    requires imgPaths + GraphPaths(index[i..], localTime, hour, svc) == GraphPaths(index, localTime, hour, svc)
    ensures collected + GraphPaths(index[i + 1..], localTime, hour, svc) == GraphPaths(index, localTime, hour, svc)
  {
    var graphPath := GenerateIndexHistoryGraph(index[i].indexName, localTime, hour, svc);
    GraphPathsAdvance(index, i, localTime, hour, svc, imgPaths);
    collected := imgPaths;
    if graphPath.Ok? {
      collected := imgPaths + [graphPath.value];
    }
  }

  /** Collecting the chart of index `i`, if made, keeps the loop's paths a prefix of the reference. */
  lemma GraphPathsAdvance(index: seq<IndexConfig>, i: nat, localTime: Instant, hour: int, svc: ReportServices,
                          acc: seq<string>)
    requires i < |index|
    requires acc + GraphPaths(index[i..], localTime, hour, svc) == GraphPaths(index, localTime, hour, svc)
    ensures var g := GraphOutcome(index[i].indexName, localTime, hour, svc);
      (if g.Ok? then acc + [g.value] else acc) + GraphPaths(index[i + 1..], localTime, hour, svc)
        == GraphPaths(index, localTime, hour, svc)
  {
    var g := GraphOutcome(index[i].indexName, localTime, hour, svc);
    var made := if g.Ok? then [g.value] else [];
    GraphPathsStep(index, i, localTime, hour, svc);
    AppendAssoc(acc, made, GraphPaths(index[i + 1..], localTime, hour, svc));
    assert acc + made == if g.Ok? then acc + [g.value] else acc;
  }

  /** The paths from position `i` on: the chart of index `i`, if made, then the paths after it. */
  lemma GraphPathsStep(index: seq<IndexConfig>, i: nat, localTime: Instant, hour: int, svc: ReportServices)
    requires i < |index|
    ensures var g := GraphOutcome(index[i].indexName, localTime, hour, svc);
      GraphPaths(index[i..], localTime, hour, svc)
        == (if g.Ok? then [g.value] else []) + GraphPaths(index[i + 1..], localTime, hour, svc)
  {
    assert index[i..][0] == index[i] && index[i..][1..] == index[i + 1..];
  }

  /** The report HTML: the template filled with the report date, the index count and one row per index. */
  function ReportHtml(index: seq<IndexConfig>, localTime: Instant, svc: ReportServices): Result<string, string> {
    svc.renderHtml(ConvertDateToStr(localTime, svc.localOffset), |index|, ConcatMap(index, IndexRow))
  }

  /** What the report task run at `localTime` returns, given the charts made. */
  function TaskOutcome(index: seq<IndexConfig>, localTime: Instant, imgPaths: seq<string>, svc: ReportServices)
    : (r: Result<(), ReportError>)
    ensures ReportHtml(index, localTime, svc).Err? ==> r == Err(TemplateFailed(ReportHtml(index, localTime, svc).error))
    ensures r.Ok? <==> (ReportHtml(index, localTime, svc).Ok?
      && svc.sendReport(Subject(localTime, svc), ReportHtml(index, localTime, svc).value, imgPaths).Ok?)
  {
    match ReportHtml(index, localTime, svc)
    case Err(e) => Err(TemplateFailed(e))
    case Ok(html) =>
      match svc.sendReport(Subject(localTime, svc), html, imgPaths)
      case Err(e) => Err(SendFailed(e))
      case Ok(_) => Ok(())
  }

  /**
   * `report_index_cnt_task`: a chart per index, then the report HTML, then
   * the mail with the charts made. `imgPaths` is the list handed to the mail.
   */
  method ReportIndexCntTask(index: seq<IndexConfig>, localTime: Instant, hour: int, svc: ReportServices)
    returns (r: Result<(), ReportError>, imgPaths: seq<string>)
    ensures imgPaths == GraphPaths(index, localTime, hour, svc)
    ensures r == TaskOutcome(index, localTime, imgPaths, svc)
  {
    imgPaths := GenerateGraphs(index, localTime, hour, svc);
    var subject := Subject(localTime, svc);
    var rows := GenerateIndexRows(index);
    var html := svc.renderHtml(ConvertDateToStr(localTime, svc.localOffset), |index|, rows);
    if html.Err? {
      return Err(TemplateFailed(html.error)), imgPaths;
    }
    var sent := svc.sendReport(subject, html.value, imgPaths);
    if sent.Err? {
      return Err(SendFailed(sent.error)), imgPaths;
    }
    return Ok(()), imgPaths;
  }

  /** One cadence's report settings. */
  datatype ReportConfig = ReportConfig(enabled: bool, cronSchedule: string)

  datatype SchedulerError = BadCron(schedule: string) | NoNextRun

  /** Where `report_loop` is. */
  datatype LoopState =
    | NotStarted
    /** Disabled: sleeping an hour at a time, forever. */
    | Parked
    /** Enabled with a parsed schedule, reporting over the last `hour` hours. */
    | Running(hour: int)
    /** `report_loop` returned this error. */
    | Exited(error: SchedulerError)

  /** The state `report_loop` reaches from its configuration. */
  function StartState(config: ReportConfig, reportType: ReportType, parses: string -> bool): (s: LoopState)
    ensures !config.enabled ==> s == Parked
    ensures config.enabled && !parses(config.cronSchedule) ==> s == Exited(BadCron(config.cronSchedule))
    ensures config.enabled && parses(config.cronSchedule) ==> s == Running(GetDays(reportType) * 24)
  {
    if !config.enabled then Parked
    else if !parses(config.cronSchedule) then Exited(BadCron(config.cronSchedule))
    else Running(LookbackHours(reportType))
  }

  /** The state after one iteration, given the next fire time the schedule yields (None: none left). */
  function NextState(s: LoopState, nextRun: Option<Instant>): (t: LoopState)
    requires s.Parked? || s.Running?
    ensures s.Parked? ==> t == Parked
    ensures s.Running? ==> (t == s <==> nextRun.Some?)
    ensures s.Running? && nextRun.None? ==> t == Exited(NoNextRun)
  {
    if s.Parked? then Parked
    else if nextRun.None? then Exited(NoNextRun)
    else s
  }

  /** The state after a run of iterations, and how many report tasks it ran. */
  function RunLoop(s: LoopState, nextRuns: seq<Option<Instant>>): (out: (LoopState, nat))
    ensures out.1 <= |nextRuns|
    ensures !(s.Parked? || s.Running?) ==> out == (s, 0)
    decreases |nextRuns|
  {
    if nextRuns == [] || !(s.Parked? || s.Running?) then (s, 0)
    else
      var rest := RunLoop(NextState(s, nextRuns[0]), nextRuns[1..]);
      (rest.0, rest.1 + (if s.Running? then 1 else 0))
  }

  /** A disabled scheduler never runs a report task and never leaves its wait. */
  lemma {:induction false} ParkedForever(nextRuns: seq<Option<Instant>>)
    ensures RunLoop(Parked, nextRuns) == (Parked, 0)
    decreases |nextRuns|
  {
    if nextRuns != [] {
      ParkedForever(nextRuns[1..]);
    }
  }

  /** A malformed schedule ends the loop before any report task. */
  lemma BadCronRunsNothing(config: ReportConfig, reportType: ReportType, parses: string -> bool,
                           nextRuns: seq<Option<Instant>>)
    requires config.enabled && !parses(config.cronSchedule)
    ensures RunLoop(StartState(config, reportType, parses), nextRuns) == (Exited(BadCron(config.cronSchedule)), 0)
  {
  }

  /** While the schedule keeps yielding fire times, every iteration runs exactly one report task. */
  lemma {:induction false} RunningRunsEveryIteration(hour: int, nextRuns: seq<Option<Instant>>)
    requires forall k :: 0 <= k < |nextRuns| ==> nextRuns[k].Some?
    ensures RunLoop(Running(hour), nextRuns) == (Running(hour), |nextRuns|)
    decreases |nextRuns|
  {
    if nextRuns != [] {
      assert forall k :: 0 <= k < |nextRuns| - 1 ==> nextRuns[1..][k] == nextRuns[k + 1];
      RunningRunsEveryIteration(hour, nextRuns[1..]);
    }
  }

  /** `report_loop` for one cadence, one iteration at a time. */
  class ReportScheduler {
    const reportType: ReportType
    const config: ReportConfig
    const index: seq<IndexConfig>
    var state: LoopState
    /** The local times at which a report task was started. */
    var tasksRun: seq<Instant>
    /** The sleeps taken, in seconds. */
    var sleeps: seq<int>

    constructor (reportType: ReportType, config: ReportConfig, index: seq<IndexConfig>)
      ensures this.reportType == reportType && this.config == config && this.index == index
      ensures state == NotStarted && tasksRun == [] && sleeps == []
    {
      this.reportType := reportType;
      this.config := config;
      this.index := index;
      state := NotStarted;
      tasksRun := [];
      sleeps := [];
    }

    /** The enabled gate, then the cron parse (`parses` says whether the schedule parses). */
    method Start(parses: string -> bool)
      requires state == NotStarted
      modifies this
      ensures state == StartState(config, reportType, parses)
      ensures tasksRun == old(tasksRun) && sleeps == old(sleeps)
    {
      if !config.enabled {
        state := Parked;
        return;
      }
      if !parses(config.cronSchedule) {
        state := Exited(BadCron(config.cronSchedule));
        return;
      }
      var hour := GetDays(reportType) * 24;
      state := Running(hour);
    }

    /**
     * One iteration. Parked: sleep an hour. Running: run the report task at
     * `now` (its error is only logged), then take the next fire time; none
     * ends the loop, one already past skips the sleep.
     */
    method Step(now: Instant, nextRun: Option<Instant>, svc: ReportServices)
      returns (taskResult: Option<Result<(), ReportError>>)
      requires state.Parked? || state.Running?
      modifies this
      ensures state == NextState(old(state), nextRun)
      ensures old(state).Parked? ==> taskResult.None? && tasksRun == old(tasksRun) && sleeps == old(sleeps) + [3600]
      ensures old(state).Running? ==> tasksRun == old(tasksRun) + [now]
      ensures old(state).Running? ==>
        taskResult == Some(TaskOutcome(index, now, GraphPaths(index, now, old(state).hour, svc), svc))
      ensures old(state).Running? && nextRun.Some? && nextRun.value - now >= 0 ==>
        sleeps == old(sleeps) + [nextRun.value - now]
      ensures old(state).Running? && !(nextRun.Some? && nextRun.value - now >= 0) ==> sleeps == old(sleeps)
    {
      if state.Parked? {
        sleeps := sleeps + [3600];
        return None;
      }
      var result, _ := ReportIndexCntTask(index, now, state.hour, svc);
      tasksRun := tasksRun + [now];
      taskResult := Some(result);
      if nextRun.None? {
        state := Exited(NoNextRun);
        return;
      }
      var duration := nextRun.value - now;
      if duration < 0 {
        return;
      }
      sleeps := sleeps + [duration];
    }
  }
}
