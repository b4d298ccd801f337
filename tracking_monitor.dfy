/**
 * The tracking monitor (service/tracking_monitor_service_impl.rs): every tick
 * it samples the document count of each configured index, persists the sample
 * with its difference to the previous one, detects the indices whose count
 * fluctuated too much, logs them to the alarm history and sends an alert.
 *
 * The query and notification services are oracles bundled in `Services`,
 * already bound to the monitoring index. The writes the monitor makes are
 * recorded in the fields of `TrackingMonitor`.
 */
module TrackingMonitor {
  import opened Wrappers
  import opened Records
  import opened TimeUtils
  import opened QueryService

  /** Why the notification service could not send an alert. */
  datatype AlertError = AlertError(reason: string)

  datatype Services = Services(
    /** `get_index_doc_count` on the monitored cluster. */
    docCount: string -> Result<nat, QueryError>,
    /** `get_latest_index_count_infos`: the last persisted sample of an index. */
    latest: string -> Result<AlertIndex, QueryError>,
    /** `post_log_index` of a sample. */
    persist: AlertIndex -> Result<(), QueryError>,
    /** `get_alert_infos_from_log_index`: the evaluation of one index. */
    alertInfo: IndexConfig -> Result<LogIndexResult, QueryError>,
    /** `post_alarm_history_index` of one history record. */
    postHistory: AlarmLogHistoryIndex -> Result<(), QueryError>,
    /** `send_index_alert_message`. */
    sendAlert: seq<LogIndexResult> -> Result<(), AlertError>)

  /** `usize::abs_diff`. */
  function AbsDiff(a: nat, b: nat): (d: nat)
    ensures a + d == b || b + d == a
  {
    if a >= b then a - b else b - a
  }

  /** The previous count: that of the last sample, or 0 when it cannot be read. */
  function PrevCnt(prev: Result<AlertIndex, QueryError>): nat {
    if prev.Ok? then prev.value.cnt else 0
  }

  /** The sample persisted for an index counted `cnt` at time `ts`. */
  function MakeSample(name: string, cnt: nat, prev: Result<AlertIndex, QueryError>, ts: string): (s: AlertIndex)
    ensures s.indexName == name && s.cnt == cnt && s.timestamp == ts
    ensures prev.Ok? ==> s.prevCnt == prev.value.cnt
    ensures prev.Err? ==> s.prevCnt == 0 && s.curPrevDiff == cnt
    ensures s.cnt + s.curPrevDiff == s.prevCnt || s.prevCnt + s.curPrevDiff == s.cnt
  {
    var prevCnt := PrevCnt(prev);
    AlertIndex(name, cnt, prevCnt, AbsDiff(cnt, prevCnt), ts)
  }

  /** What `save_index_cnt_infos` wrote and what it returned. */
  datatype SaveOutcome = SaveOutcome(written: seq<AlertIndex>, result: Result<(), QueryError>)

  /** The samples of the indices whose count could be read, in configuration order. */
  function Sampled(index: seq<IndexConfig>, svc: Services, ts: string): (s: seq<AlertIndex>)
    ensures |s| <= |index|
    decreases |index|
  {
    if index == [] then []
    else
      var name := index[0].indexName;
      match svc.docCount(name)
      case Err(_) => Sampled(index[1..], svc, ts)
      case Ok(cnt) => [MakeSample(name, cnt, svc.latest(name), ts)] + Sampled(index[1..], svc, ts)
  }

  /**
   * The reference meaning of `save_index_cnt_infos`: an index whose count
   * fails is skipped, each other index gets one sample persisted, and the
   * first failed write ends the call.
   */
  function SaveSpec(index: seq<IndexConfig>, svc: Services, ts: string): (out: SaveOutcome)
    ensures index == [] ==> out == SaveOutcome([], Ok(()))
    decreases |index|
  {
    if index == [] then SaveOutcome([], Ok(()))
    else
      var name := index[0].indexName;
      match svc.docCount(name)
      case Err(_) => SaveSpec(index[1..], svc, ts)
      case Ok(cnt) =>
        var sample := MakeSample(name, cnt, svc.latest(name), ts);
        match svc.persist(sample)
        case Err(e) => SaveOutcome([], Err(e))
        case Ok(_) =>
          var rest := SaveSpec(index[1..], svc, ts);
          SaveOutcome([sample] + rest.written, rest.result)
  }

  /**
   * The samples written are the first ones of `Sampled`: all of them when the
   * call succeeds, and otherwise those before the one whose write failed.
   */
  lemma {:induction false} SaveSpecPrefix(index: seq<IndexConfig>, svc: Services, ts: string)
    ensures var out, all := SaveSpec(index, svc, ts), Sampled(index, svc, ts);
      && |out.written| <= |all| && out.written == all[..|out.written|]
      && (out.result.Ok? ==> out.written == all)
      && (out.result.Err? ==> |out.written| < |all| && svc.persist(all[|out.written|]) == Err(out.result.error))
      && (forall k :: 0 <= k < |out.written| ==> svc.persist(out.written[k]).Ok?)
    decreases |index|
  {
    if index != [] {
      SaveSpecPrefix(index[1..], svc, ts);
      var name := index[0].indexName;
      if svc.docCount(name).Ok? {
        var sample := MakeSample(name, svc.docCount(name).value, svc.latest(name), ts);
        var out, all := SaveSpec(index, svc, ts), Sampled(index, svc, ts);
        var rest, restAll := SaveSpec(index[1..], svc, ts), Sampled(index[1..], svc, ts);
        assert all == [sample] + restAll;
        if svc.persist(sample).Ok? {
          assert out.written == [sample] + rest.written;
          assert all[..|out.written|] == [sample] + restAll[..|rest.written|];
          forall k | 0 <= k < |out.written| ensures svc.persist(out.written[k]).Ok? {
            if k > 0 { assert out.written[k] == rest.written[k - 1]; }
          }
        }
      }
    }
  }

  /** When every write succeeds, the call succeeds and every countable index gets its sample. */
  lemma SaveAllWritten(index: seq<IndexConfig>, svc: Services, ts: string)
    requires forall s: AlertIndex :: svc.persist(s).Ok?
    ensures SaveSpec(index, svc, ts) == SaveOutcome(Sampled(index, svc, ts), Ok(()))
  {
    SaveSpecPrefix(index, svc, ts);
  }

  /** Sampling distributes over a split of the configuration. */
  lemma {:induction false} SampledAppend(a: seq<IndexConfig>, b: seq<IndexConfig>, svc: Services, ts: string)
    ensures Sampled(a + b, svc, ts) == Sampled(a, svc, ts) + Sampled(b, svc, ts)
    decreases |a|
  {
    if a == [] {
      assert a + b == b;
    } else {
      SampledAppend(a[1..], b, svc, ts);
      assert (a + b)[0] == a[0];
      assert (a + b)[1..] == a[1..] + b;
      var name := a[0].indexName;
      if svc.docCount(name).Ok? {
        var sample := MakeSample(name, svc.docCount(name).value, svc.latest(name), ts);
        calc {
          Sampled(a + b, svc, ts);
          [sample] + Sampled(a[1..] + b, svc, ts);
          [sample] + (Sampled(a[1..], svc, ts) + Sampled(b, svc, ts));
          ([sample] + Sampled(a[1..], svc, ts)) + Sampled(b, svc, ts);
        }
      }
    }
  }

  /** An index whose count cannot be read is skipped and the indices after it are still sampled. */
  lemma SampledSkipsFailedCount(index: seq<IndexConfig>, k: nat, svc: Services, ts: string)
    requires k < |index| && svc.docCount(index[k].indexName).Err?
    ensures Sampled(index, svc, ts) == Sampled(index[..k], svc, ts) + Sampled(index[k + 1..], svc, ts)
  {
    assert index == index[..k] + ([index[k]] + index[k + 1..]);
    SampledAppend(index[..k], [index[k]] + index[k + 1..], svc, ts);
    assert ([index[k]] + index[k + 1..])[1..] == index[k + 1..];
  }

  /** Each sample records the count read, the previous count (0 when unknown) and their distance. */
  lemma {:induction false} SampledFields(index: seq<IndexConfig>, svc: Services, ts: string)
    ensures forall s :: s in Sampled(index, svc, ts) ==>
      && svc.docCount(s.indexName) == Ok(s.cnt)
      && s.prevCnt == PrevCnt(svc.latest(s.indexName))
      && s.curPrevDiff == AbsDiff(s.cnt, s.prevCnt)
      && s.timestamp == ts
      && exists k :: 0 <= k < |index| && index[k].indexName == s.indexName
    decreases |index|
  {
    if index != [] {
      SampledFields(index[1..], svc, ts);
      forall s | s in Sampled(index[1..], svc, ts)
        ensures exists k :: 0 <= k < |index| && index[k].indexName == s.indexName
      {
        var k :| 0 <= k < |index[1..]| && index[1..][k].indexName == s.indexName;
        assert index[k + 1].indexName == s.indexName;
      }
    }
  }

  /** The results of a pass that call for an alert, in order. */
  function Alerting(results: seq<LogIndexResult>): (a: seq<LogIndexResult>)
    ensures |a| <= |results|
    ensures forall x :: x in a <==> x in results && x.alertYn
  {
    if results == [] then []
    else if results[0].alertYn then [results[0]] + Alerting(results[1..])
    else Alerting(results[1..])
  }

  /** The evaluation of every index, when all of them could be evaluated. */
  function Evaluations(index: seq<IndexConfig>, svc: Services): (rs: seq<LogIndexResult>)
    requires forall k :: 0 <= k < |index| ==> svc.alertInfo(index[k]).Ok?
    ensures |rs| == |index|
    ensures forall k :: 0 <= k < |index| ==> svc.alertInfo(index[k]) == Ok(rs[k])
  {
    seq(|index|, k requires 0 <= k < |index| => svc.alertInfo(index[k]).value)
  }

  /** The reference meaning of `detect_abnormal_index_changes`. */
  function DetectSpec(index: seq<IndexConfig>, svc: Services): (r: Result<seq<LogIndexResult>, QueryError>)
    ensures r.Ok? ==> |r.value| <= |index|
    decreases |index|
  {
    if index == [] then Ok([])
    else
      match svc.alertInfo(index[0])
      case Err(e) => Err(e)
      case Ok(res) =>
        match DetectSpec(index[1..], svc)
        case Err(e) => Err(e)
        case Ok(rest) => Ok(if res.alertYn then [res] + rest else rest)
  }

  /**
   * Detection succeeds exactly when every index can be evaluated, and then
   * returns the alerting evaluations in configuration order; otherwise it
   * fails with the error of the first index that could not be evaluated.
   */
  lemma {:induction false} DetectSpecMeaning(index: seq<IndexConfig>, svc: Services)
    ensures var r := DetectSpec(index, svc);
      && (r.Ok? <==> forall k :: 0 <= k < |index| ==> svc.alertInfo(index[k]).Ok?)
      && (r.Ok? ==> r.value == Alerting(Evaluations(index, svc)))
      && (r.Err? ==> exists k :: (0 <= k < |index| && svc.alertInfo(index[k]) == Err(r.error)
            && forall j :: 0 <= j < k ==> svc.alertInfo(index[j]).Ok?))
    decreases |index|
  {
    if index != [] {
      DetectSpecMeaning(index[1..], svc);
      assert forall j :: 1 <= j < |index| ==> index[1..][j - 1] == index[j];
      var r := DetectSpec(index, svc);
      if r.Ok? {
        assert Evaluations(index, svc) == [svc.alertInfo(index[0]).value] + Evaluations(index[1..], svc);
      }
      if r.Err? && svc.alertInfo(index[0]).Ok? {
        var k :| 0 <= k < |index[1..]| && svc.alertInfo(index[1..][k]) == Err(r.error)
          && forall j :: 0 <= j < k ==> svc.alertInfo(index[1..][j]).Ok?;
        assert svc.alertInfo(index[k + 1]) == Err(r.error);
      }
    }
  }

  /** One evaluated index, then the rest of the pass. */
  lemma DetectSpecStep(index: seq<IndexConfig>, svc: Services)
    requires index != []
    ensures svc.alertInfo(index[0]).Err? ==> DetectSpec(index, svc) == Err(svc.alertInfo(index[0]).error)
    ensures svc.alertInfo(index[0]).Ok? ==> DetectSpec(index, svc) == AfterDetected(
      if svc.alertInfo(index[0]).value.alertYn then [svc.alertInfo(index[0]).value] else [],
      DetectSpec(index[1..], svc))
  {
    var rest := DetectSpec(index[1..], svc);
    if rest.Ok? {
      assert [] + rest.value == rest.value;
    }
  }

  /** One alarm-history record: name, current count and fluctuation of a result, stamped `ts`. */
  function HistoryRecord(res: LogIndexResult, ts: string): (h: AlarmLogHistoryIndex)
    ensures h.indexName == res.indexName && h.indexCnt == res.curCnt
    ensures h.fluctuationVal == res.fluctuationVal && h.timestamp == ts
  {
    AlarmLogHistoryIndex(res.indexName, res.curCnt, res.fluctuationVal, ts)
  }

  /** What `logging_alarm_history_infos` wrote and what it returned. */
  datatype LogOutcome = LogOutcome(written: seq<AlarmLogHistoryIndex>, result: Result<(), QueryError>)

  /** The reference meaning of `logging_alarm_history_infos`: one record per result, up to the first failed write. */
  function LogSpec(results: seq<LogIndexResult>, svc: Services, ts: string): (out: LogOutcome)
    ensures |out.written| <= |results|
    decreases |results|
  {
    if results == [] then LogOutcome([], Ok(()))
    else
      var record := HistoryRecord(results[0], ts);
      match svc.postHistory(record)
      case Err(e) => LogOutcome([], Err(e))
      case Ok(_) =>
        var rest := LogSpec(results[1..], svc, ts);
        LogOutcome([record] + rest.written, rest.result)
  }

  /**
   * The records written are those of the results in order, each copying its
   * result, all of them when the run succeeds and otherwise up to the one
   * whose write failed.
   */
  lemma {:induction false} LogSpecRecords(results: seq<LogIndexResult>, svc: Services, ts: string)
    ensures var out := LogSpec(results, svc, ts);
      && (forall k :: 0 <= k < |out.written| ==>
            out.written[k] == HistoryRecord(results[k], ts) && svc.postHistory(out.written[k]).Ok?)
      && (out.result.Ok? ==> |out.written| == |results|)
      && (out.result.Err? ==> (|out.written| < |results|
            && svc.postHistory(HistoryRecord(results[|out.written|], ts)) == Err(out.result.error)))
    decreases |results|
  {
    if results != [] && svc.postHistory(HistoryRecord(results[0], ts)).Ok? {
      LogSpecRecords(results[1..], svc, ts);
      var out, rest := LogSpec(results, svc, ts), LogSpec(results[1..], svc, ts);
      assert out.written == [HistoryRecord(results[0], ts)] + rest.written;
      forall k | 0 <= k < |out.written|
        ensures out.written[k] == HistoryRecord(results[k], ts) && svc.postHistory(out.written[k]).Ok?
      {
        if k > 0 { assert out.written[k] == rest.written[k - 1] && results[k] == results[1..][k - 1]; }
      }
    }
  }

  /** The samples `written` before the rest of a run, followed by what the rest does. */
  function AfterSaved(written: seq<AlertIndex>, rest: SaveOutcome): SaveOutcome {
    SaveOutcome(written + rest.written, rest.result)
  }

  /** One index of a save pass, then the rest of the pass. */
  lemma SaveSpecStep(index: seq<IndexConfig>, svc: Services, ts: string)
    requires index != []
    ensures var name := index[0].indexName;
      svc.docCount(name).Err? ==> SaveSpec(index, svc, ts) == SaveSpec(index[1..], svc, ts)
    ensures var name := index[0].indexName;
      svc.docCount(name).Ok? ==>
        var sample := MakeSample(name, svc.docCount(name).value, svc.latest(name), ts);
        && (svc.persist(sample).Err? ==> SaveSpec(index, svc, ts) == SaveOutcome([], Err(svc.persist(sample).error)))
        && (svc.persist(sample).Ok? ==> SaveSpec(index, svc, ts) == AfterSaved([sample], SaveSpec(index[1..], svc, ts)))
  {
  }

  /** The results found before the rest of a pass, followed by what the rest finds. */
  function AfterDetected(found: seq<LogIndexResult>, rest: Result<seq<LogIndexResult>, QueryError>)
    : Result<seq<LogIndexResult>, QueryError>
  {
    if rest.Ok? then Ok(found + rest.value) else rest
  }

  /** The records `written` before the rest of a run, followed by what the rest does. */
  function AfterLogged(written: seq<AlarmLogHistoryIndex>, rest: LogOutcome): LogOutcome {
    LogOutcome(written + rest.written, rest.result)
  }

  /** One successful history write, then the rest of the run. */
  lemma LogSpecStep(results: seq<LogIndexResult>, svc: Services, ts: string)
    requires results != []
    ensures svc.postHistory(HistoryRecord(results[0], ts)).Ok? ==>
      LogSpec(results, svc, ts) == AfterLogged([HistoryRecord(results[0], ts)], LogSpec(results[1..], svc, ts))
    ensures svc.postHistory(HistoryRecord(results[0], ts)).Err? ==>
      LogSpec(results, svc, ts) == LogOutcome([], Err(svc.postHistory(HistoryRecord(results[0], ts)).error))
  {
  }

  /** How one tick of `tracking_monitor_loop` went. */
  datatype TickOutcome =
    | SaveFailed(saveError: QueryError)
    | DetectFailed(detectError: QueryError)
    | NothingToReport
    | Reported(history: Result<(), QueryError>, alert: Result<(), AlertError>)

  class TrackingMonitor {
    /** The configured indices, in configuration order. */
    const indexList: seq<IndexConfig>
    /** Every count sample persisted so far. */
    var samples: seq<AlertIndex>
    /** Every alarm-history record written so far. */
    var history: seq<AlarmLogHistoryIndex>
    /** Every list of results an alert was requested for, in order. */
    var alertsSent: seq<seq<LogIndexResult>>

    constructor (indexList: seq<IndexConfig>)
      ensures this.indexList == indexList
      ensures samples == [] && history == [] && alertsSent == []
    {
      this.indexList := indexList;
      samples := [];
      history := [];
      alertsSent := [];
    }

    /** `save_index_cnt_infos`, every sample stamped `ts` (the rendering of the time the call started). */
    method SaveIndexCntInfos(svc: Services, ts: string) returns (r: Result<(), QueryError>)
      modifies this
      ensures samples == old(samples) + SaveSpec(indexList, svc, ts).written
      ensures r == SaveSpec(indexList, svc, ts).result
      ensures history == old(history) && alertsSent == old(alertsSent)
    {
      ghost var written: seq<AlertIndex> := [];
      var i := 0;
      assert indexList[i..] == indexList;
      while i < |indexList|
        invariant 0 <= i <= |indexList|
        invariant samples == old(samples) + written
        invariant history == old(history) && alertsSent == old(alertsSent)
        invariant SaveSpec(indexList, svc, ts) == AfterSaved(written, SaveSpec(indexList[i..], svc, ts))
      {
        var name := indexList[i].indexName;
        assert indexList[i..][1..] == indexList[i + 1..];
        SaveSpecStep(indexList[i..], svc, ts);
        var count := svc.docCount(name);
        if count.Err? {
          i := i + 1;
          continue;
        }
        var sample := MakeSample(name, count.value, svc.latest(name), ts);
        var posted := svc.persist(sample);
        if posted.Err? {
          return Err(posted.error);
        }
        assert AfterSaved(written, AfterSaved([sample], SaveSpec(indexList[i + 1..], svc, ts)))
          == AfterSaved(written + [sample], SaveSpec(indexList[i + 1..], svc, ts));
        samples := samples + [sample];
        written := written + [sample];
        i := i + 1;
      }
      return Ok(());
    }

    /** `detect_abnormal_index_changes`. */
    method DetectAbnormalIndexChanges(svc: Services) returns (r: Result<seq<LogIndexResult>, QueryError>)
      ensures r == DetectSpec(indexList, svc)
    {
      var results: seq<LogIndexResult> := [];
      var i := 0;
      assert indexList[i..] == indexList;
      assert DetectSpec(indexList, svc).Ok? ==> results + DetectSpec(indexList, svc).value == DetectSpec(indexList, svc).value;
      while i < |indexList|
        invariant 0 <= i <= |indexList|
        invariant DetectSpec(indexList, svc) == AfterDetected(results, DetectSpec(indexList[i..], svc))
      {
        assert indexList[i..][1..] == indexList[i + 1..];
        var res := svc.alertInfo(indexList[i]);
        DetectSpecStep(indexList[i..], svc);
        if res.Err? {
          return Err(res.error);
        }
        ghost var found := if res.value.alertYn then [res.value] else [];
        ghost var rest := DetectSpec(indexList[i + 1..], svc);
        assert rest.Ok? ==> results + (found + rest.value) == (results + found) + rest.value;
        if res.value.alertYn {
          results := results + [res.value];
        } else {
          assert results + found == results;
        }
        i := i + 1;
      }
      assert indexList[i..] == [];
      assert results + [] == results;
      return Ok(results);
    }

    /** `logging_alarm_history_infos`, every record stamped `ts` (the rendering of the detection time). */
    method LoggingAlarmHistoryInfos(results: seq<LogIndexResult>, svc: Services, ts: string)
      returns (r: Result<(), QueryError>)
      modifies this
      ensures history == old(history) + LogSpec(results, svc, ts).written
      ensures r == LogSpec(results, svc, ts).result
      ensures samples == old(samples) && alertsSent == old(alertsSent)
    {
      ghost var written: seq<AlarmLogHistoryIndex> := [];
      var i := 0;
      assert results[i..] == results;
      while i < |results|
        invariant 0 <= i <= |results|
        invariant history == old(history) + written
        invariant samples == old(samples) && alertsSent == old(alertsSent)
        invariant LogSpec(results, svc, ts) == AfterLogged(written, LogSpec(results[i..], svc, ts))
      {
        assert results[i..][1..] == results[i + 1..];
        var record := HistoryRecord(results[i], ts);
        var posted := svc.postHistory(record);
        LogSpecStep(results[i..], svc, ts);
        if posted.Err? {
          assert written + [] == written;
          return Err(posted.error);
        }
        ghost var rest := LogSpec(results[i + 1..], svc, ts).written;
        assert written + ([record] + rest) == (written + [record]) + rest;
        history := history + [record];
        written := written + [record];
        i := i + 1;
      }
      assert results[i..] == [];
      return Ok(());
    }

    /** `alert_index_status`: hand the results to the notification service and pass on its outcome. */
    method AlertIndexStatus(results: seq<LogIndexResult>, svc: Services) returns (r: Result<(), AlertError>)
      modifies this
      ensures alertsSent == old(alertsSent) + [results]
      ensures r == svc.sendAlert(results)
      ensures samples == old(samples) && history == old(history)
    {
      alertsSent := alertsSent + [results];
      r := svc.sendAlert(results);
    }

    /**
     * One iteration of `tracking_monitor_loop`: samples are stamped `saveTime`,
     * history records `detectTime`. Every failure is logged and the loop goes
     * on, so a tick has no error of its own.
     */
    method Tick(svc: Services, saveTime: Instant, detectTime: Instant) returns (outcome: TickOutcome)
      modifies this
      ensures var save := SaveSpec(indexList, svc, ConvertDateToStr(saveTime, 0));
        && samples == old(samples) + save.written
        && (save.result.Err? ==> outcome == SaveFailed(save.result.error))
      ensures var save := SaveSpec(indexList, svc, ConvertDateToStr(saveTime, 0));
        var detected := DetectSpec(indexList, svc);
        && (save.result.Ok? && detected.Err? ==> outcome == DetectFailed(detected.error))
        && (save.result.Ok? && detected.Ok? && detected.value == [] ==> outcome == NothingToReport)
      ensures var save := SaveSpec(indexList, svc, ConvertDateToStr(saveTime, 0));
        var detected := DetectSpec(indexList, svc);
        save.result.Ok? && detected.Ok? && detected.value != [] ==> outcome.Reported?
      ensures !outcome.Reported? ==> history == old(history) && alertsSent == old(alertsSent)
      ensures outcome.Reported? ==>
        var detected := DetectSpec(indexList, svc);
        var logged := LogSpec(detected.value, svc, ConvertDateToStr(detectTime, 0));
        && SaveSpec(indexList, svc, ConvertDateToStr(saveTime, 0)).result.Ok?
        && detected.Ok? && detected.value != []
        && history == old(history) + logged.written
        && alertsSent == old(alertsSent) + [detected.value]
        && outcome == Reported(logged.result, svc.sendAlert(detected.value))
    {
      var saved := SaveIndexCntInfos(svc, ConvertDateToStr(saveTime, 0));
      if saved.Err? {
        return SaveFailed(saved.error);
      }
      var detected := DetectAbnormalIndexChanges(svc);
      if detected.Err? {
        return DetectFailed(detected.error);
      }
      if detected.value == [] {
        return NothingToReport;
      }
      var logged := LoggingAlarmHistoryInfos(detected.value, svc, ConvertDateToStr(detectTime, 0));
      var alerted := AlertIndexStatus(detected.value, svc);
      return Reported(logged, alerted);
    }
  }

  /** Something is detected exactly when some index is evaluated as alerting. */
  lemma DetectedIffAlerting(index: seq<IndexConfig>, svc: Services)
    requires DetectSpec(index, svc).Ok?
    ensures DetectSpec(index, svc).value != [] <==>
      exists k :: 0 <= k < |index| && svc.alertInfo(index[k]).Ok? && svc.alertInfo(index[k]).value.alertYn
  {
    DetectSpecMeaning(index, svc);
    var rs := Evaluations(index, svc);
    if DetectSpec(index, svc).value != [] {
      var x := DetectSpec(index, svc).value[0];
      assert x in Alerting(rs);
      var k :| 0 <= k < |rs| && rs[k] == x;
      assert svc.alertInfo(index[k]) == Ok(x);
    }
    if exists k :: 0 <= k < |index| && svc.alertInfo(index[k]).Ok? && svc.alertInfo(index[k]).value.alertYn {
      var k :| 0 <= k < |index| && svc.alertInfo(index[k]).Ok? && svc.alertInfo(index[k]).value.alertYn;
      assert rs[k] in Alerting(rs);
    }
  }
}
