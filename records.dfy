/**
 * The records the service reads and writes (the index models, dto/log_index_result.rs,
 * dto/alarm/alarm_log_history_index.rs), and serde's JSON mapping of the
 * persisted count sample.
 */
module Records {
  import opened Wrappers
  import opened Json

  /** One monitored index from the index list configuration. */
  datatype IndexConfig = IndexConfig(indexName: string, allowableFluctuationRange: real, aggTermSec: int)

  /**
   * A persisted count sample. The tracking monitor builds it with five fields
   * (name, count, previous count, absolute difference, timestamp), so it is
   * modelled with all five.
   */
  datatype AlertIndex = AlertIndex(indexName: string, cnt: nat, prevCnt: nat, curPrevDiff: nat, timestamp: string)

  /** A search hit: the document id and its decoded source. */
  datatype AlertIndexFormat = AlertIndexFormat(docId: string, alertIndex: AlertIndex)

  /** The evaluation of one index in one detection pass. */
  datatype LogIndexResult = LogIndexResult(
    indexName: string,
    alertYn: bool,
    fluctuationVal: real,
    curCnt: nat,
    alertIndexFormat: Option<seq<AlertIndex>>)

  /** One alarm-history document. */
  datatype AlarmLogHistoryIndex = AlarmLogHistoryIndex(indexName: string, indexCnt: nat, fluctuationVal: real, timestamp: string)

  /** Why serde could not turn a JSON value into an AlertIndex. */
  datatype DeserializeError = InvalidType | MissingField(name: string) | InvalidField(name: string) | InvalidLength

  /** Every `usize` field fits in 64 bits, as on the 64-bit targets the service runs on. */
  predicate Fits(a: AlertIndex) {
    a.cnt < U64_LIMIT && a.prevCnt < U64_LIMIT && a.curPrevDiff < U64_LIMIT
  }

  /** `serde_json::to_value` of an AlertIndex. */
  function EncodeAlertIndex(a: AlertIndex): Json {
    Object(map[
      "index_name" := Str(a.indexName),
      "cnt" := Int(a.cnt),
      "prev_cnt" := Int(a.prevCnt),
      "cur_prev_diff" := Int(a.curPrevDiff),
      "timestamp" := Str(a.timestamp)])
  }

  function StrField(m: map<string, Json>, name: string): Result<string, DeserializeError> {
    if name !in m then Err(MissingField(name))
    else if !m[name].Str? then Err(InvalidField(name))
    else Ok(m[name].s)
  }

  function UsizeField(m: map<string, Json>, name: string): Result<nat, DeserializeError> {
    if name !in m then Err(MissingField(name))
    else match AsU64(m[name])
      case None => Err(InvalidField(name))
      case Some(n) => Ok(n)
  }

  function StrElem(v: Json): Result<string, DeserializeError> {
    if v.Str? then Ok(v.s) else Err(InvalidType)
  }

  function UsizeElem(v: Json): Result<nat, DeserializeError> {
    match AsU64(v)
    case None => Err(InvalidType)
    case Some(n) => Ok(n)
  }

  /**
   * `serde_json::from_value::<AlertIndex>`: an object with the five fields
   * (other members ignored), or an array of exactly five elements in field order.
   */
  function DecodeAlertIndex(v: Json): (r: Result<AlertIndex, DeserializeError>)
    ensures r.Ok? ==> Fits(r.value)
    ensures v.Object? && r.Ok? ==> EncodeAlertIndex(r.value).fields.Keys <= v.fields.Keys
  {
    match v
    case Object(m) =>
      var name :- StrField(m, "index_name");
      var cnt :- UsizeField(m, "cnt");
      var prev :- UsizeField(m, "prev_cnt");
      var diff :- UsizeField(m, "cur_prev_diff");
      var ts :- StrField(m, "timestamp");
      Ok(AlertIndex(name, cnt, prev, diff, ts))
    case Array(items) =>
      if |items| != 5 then Err(InvalidLength)
      else
        var name :- StrElem(items[0]);
        var cnt :- UsizeElem(items[1]);
        var prev :- UsizeElem(items[2]);
        var diff :- UsizeElem(items[3]);
        var ts :- StrElem(items[4]);
        Ok(AlertIndex(name, cnt, prev, diff, ts))
    case _ => Err(InvalidType)
  }

  /** What is persisted reads back unchanged. */
  lemma DecodeEncodeAlertIndex(a: AlertIndex)
    requires Fits(a)
    ensures DecodeAlertIndex(EncodeAlertIndex(a)) == Ok(a)
  {
  }
}
