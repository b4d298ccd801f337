/**
 * The query service (service/query_service_impl.rs): decoders that turn a
 * search response into records, the exact document count, the best-effort log
 * write and the window and fluctuation logic of `get_max_cnt_from_log_index`.
 *
 * The repository is an oracle: `search(query, index)` is what
 * `get_search_query` returns for that query on that index.
 */
module QueryService {
  import opened Wrappers
  import opened Json
  import opened Records
  import opened TimeUtils
  import opened EsRepository

  datatype QueryError =
    | MissingHits
    | HitsNotArray
    | EmptyHits
    | InvalidId
    | MissingSource
    | BadSource(decodeError: DeserializeError)
    | Repository(esError: EsError)
    | InvalidTotal
    | NegativeTotal
    | InvalidTimestamp(text: string)

  type Search = (Json, string) -> Result<Json, EsError>

  /** `hits.hits` of a search response, as an array. */
  function HitsOf(body: Json): (r: Result<seq<Json>, QueryError>)
    ensures r == Err(MissingHits) <==> GetOpt(Get(body, "hits"), "hits").None?
    ensures r == Err(HitsNotArray) <==>
      GetOpt(Get(body, "hits"), "hits").Some? && !GetOpt(Get(body, "hits"), "hits").value.Array?
    ensures r.Ok? ==> GetOpt(Get(body, "hits"), "hits") == Some(Array(r.value))
  {
    match GetOpt(Get(body, "hits"), "hits")
    case None => Err(MissingHits)
    case Some(hits) =>
      match AsArray(hits)
      case None => Err(HitsNotArray)
      case Some(arr) => Ok(arr)
  }

  /** One hit: its `_id` as a string and its `_source` decoded as an AlertIndex. */
  function DecodeHit(hit: Json): (r: Result<AlertIndexFormat, QueryError>)
    ensures r == Err(InvalidId) <==> Get(hit, "_id").None? || !Get(hit, "_id").value.Str?
    ensures r.Ok? <==>
      && Get(hit, "_id").Some? && Get(hit, "_id").value.Str?
      && Get(hit, "_source").Some? && DecodeAlertIndex(Get(hit, "_source").value).Ok?
    ensures r.Ok? ==> Get(hit, "_id") == Some(Str(r.value.docId))
    ensures r.Ok? ==> DecodeAlertIndex(Get(hit, "_source").value) == Ok(r.value.alertIndex)
  {
    match Get(hit, "_id")
    case None => Err(InvalidId)
    case Some(idVal) =>
      match AsStr(idVal)
      case None => Err(InvalidId)
      case Some(id) =>
        match Get(hit, "_source")
        case None => Err(MissingSource)
        case Some(src) =>
          match DecodeAlertIndex(src)
          case Err(e) => Err(BadSource(e))
          case Ok(source) => Ok(AlertIndexFormat(id, source))
  }

  /**
   * `map(...).collect::<Result<Vec<_>, _>>()`: every hit decoded, in hit
   * order, or the error of the first hit that does not decode.
   */
  function DecodeHits(hits: seq<Json>): (r: Result<seq<AlertIndexFormat>, QueryError>)
    ensures r.Ok? <==> forall i :: 0 <= i < |hits| ==> DecodeHit(hits[i]).Ok?
    ensures r.Ok? ==> |r.value| == |hits|
    ensures r.Ok? ==> forall i :: 0 <= i < |hits| ==> DecodeHit(hits[i]) == Ok(r.value[i])
    decreases |hits|
  {
    if hits == [] then Ok([])
    else
      match DecodeHit(hits[0])
      case Err(e) => Err(e)
      case Ok(first) =>
        match DecodeHits(hits[1..])
        case Err(e) =>
          assert forall j :: 1 <= j < |hits| ==> hits[1..][j - 1] == hits[j];
          Err(e)
        case Ok(rest) =>
          assert forall j :: 1 <= j < |hits| ==> hits[1..][j - 1] == hits[j];
          Ok([first] + rest)
  }

  /** A failed decoding reports the error of the first hit that does not decode. */
  lemma {:induction false} DecodeHitsFirstError(hits: seq<Json>)
    requires DecodeHits(hits).Err?
    ensures exists i :: (0 <= i < |hits| && DecodeHit(hits[i]) == Err(DecodeHits(hits).error)
      && forall j :: 0 <= j < i ==> DecodeHit(hits[j]).Ok?)
    decreases |hits|
  {
    if DecodeHit(hits[0]).Ok? {
      DecodeHitsFirstError(hits[1..]);
      var i :| 0 <= i < |hits[1..]| && DecodeHit(hits[1..][i]) == Err(DecodeHits(hits[1..]).error)
        && forall j :: 0 <= j < i ==> DecodeHit(hits[1..][j]).Ok?;
      assert forall j :: 1 <= j <= i + 1 ==> hits[1..][j - 1] == hits[j];
      assert DecodeHit(hits[i + 1]) == Err(DecodeHits(hits).error);
    } else {
      assert DecodeHit(hits[0]) == Err(DecodeHits(hits).error);
    }
  }

  /** `get_query_result_vec::<AlertIndexFormat, AlertIndex>`. */
  function GetQueryResultVec(body: Json): (r: Result<seq<AlertIndexFormat>, QueryError>)
    ensures HitsOf(body).Err? ==> r == Err(HitsOf(body).error)
    ensures r.Ok? ==> HitsOf(body).Ok? && |r.value| == |HitsOf(body).value|
    ensures r.Ok? ==> forall i :: 0 <= i < |r.value| ==> DecodeHit(HitsOf(body).value[i]) == Ok(r.value[i])
  {
    var hits :- HitsOf(body);
    DecodeHits(hits)
  }

  /** `get_query_result::<AlertIndexFormat, AlertIndex>`: the first hit only. */
  function GetQueryResult(body: Json): (r: Result<AlertIndexFormat, QueryError>)
    ensures HitsOf(body).Err? ==> r == Err(HitsOf(body).error)
    ensures HitsOf(body) == Ok([]) ==> r == Err(EmptyHits)
    ensures r.Ok? ==> HitsOf(body).Ok? && |HitsOf(body).value| > 0 && DecodeHit(HitsOf(body).value[0]) == r
  {
    var hits :- HitsOf(body);
    if hits == [] then Err(EmptyHits) else DecodeHit(hits[0])
  }

  /** A missing or non-array `hits.hits` fails both decoders with the same error. */
  lemma HitsErrors(body: Json)
    requires HitsOf(body).Err?
    ensures GetQueryResultVec(body) == Err(HitsOf(body).error)
    ensures GetQueryResult(body) == Err(HitsOf(body).error)
    ensures HitsOf(body).error == MissingHits || HitsOf(body).error == HitsNotArray
  {
  }

  /** On success there is one record per hit, in hit order, carrying that hit's `_id`. */
  lemma GetQueryResultVecRecords(body: Json)
    requires GetQueryResultVec(body).Ok?
    ensures var hits := GetOpt(Get(body, "hits"), "hits");
      var recs := GetQueryResultVec(body).value;
      && hits.Some? && hits.value.Array? && |recs| == |hits.value.items|
      && forall i :: 0 <= i < |recs| ==> Get(hits.value.items[i], "_id") == Some(Str(recs[i].docId))
  {
    var hits := HitsOf(body).value;
    var recs := GetQueryResultVec(body).value;
    forall i | 0 <= i < |recs| ensures Get(hits[i], "_id") == Some(Str(recs[i].docId)) {
      assert DecodeHit(hits[i]) == Ok(recs[i]);
    }
  }

  /** One hit that does not decode makes the whole vector call fail. */
  lemma OneBadHitFailsAll(body: Json, k: nat)
    requires HitsOf(body).Ok? && k < |HitsOf(body).value|
    requires DecodeHit(HitsOf(body).value[k]).Err?
    ensures GetQueryResultVec(body).Err?
  {
  }

  /** `get_query_result` fails on an empty hit array and otherwise decodes only the first hit. */
  lemma GetQueryResultFirstHit(body: Json)
    requires HitsOf(body).Ok?
    ensures HitsOf(body).value == [] ==> GetQueryResult(body) == Err(EmptyHits)
    ensures HitsOf(body).value != [] ==> GetQueryResult(body) == DecodeHit(HitsOf(body).value[0])
    ensures HitsOf(body).value != [] && GetQueryResultVec(body).Ok? ==>
      GetQueryResult(body) == Ok(GetQueryResultVec(body).value[0])
  {
  }

  /** Only the first hit matters to `get_query_result`: the rest may be anything, even undecodable. */
  lemma GetQueryResultIgnoresRest(b1: Json, b2: Json)
    requires HitsOf(b1).Ok? && HitsOf(b2).Ok?
    requires |HitsOf(b1).value| > 0 && |HitsOf(b2).value| > 0
    requires HitsOf(b1).value[0] == HitsOf(b2).value[0]
    ensures GetQueryResult(b1) == GetQueryResult(b2)
  {
  }

  /** The count query: no documents, exact total, all documents. */
  function DocCountQuery(): (q: Json)
    ensures q.Object? && q.fields.Keys == {"size", "track_total_hits", "query"}
    ensures Index(q, "size") == Int(0) && Index(q, "track_total_hits") == Bool(true)
    ensures Index(Index(q, "query"), "match_all") == Object(map[])
  {
    Object(map[
      "size" := Int(0),
      "track_total_hits" := Bool(true),
      "query" := Object(map["match_all" := Object(map[])])])
  }

  /** `resp["hits"]["total"]["value"]`, Null where a step is missing. */
  function TotalValue(resp: Json): Json {
    Index(Index(Index(resp, "hits"), "total"), "value")
  }

  /** `as_i64()` then `try_into::<usize>()` of `hits.total.value`. */
  function DocCountFromResponse(resp: Json): (r: Result<nat, QueryError>)
    ensures r.Ok? <==> TotalValue(resp).Int? && 0 <= TotalValue(resp).i < I64_LIMIT
    ensures r.Ok? ==> r.value == TotalValue(resp).i
    ensures r == Err(NegativeTotal) <==> TotalValue(resp).Int? && I64_MIN <= TotalValue(resp).i < 0
  {
    match AsI64(TotalValue(resp))
    case None => Err(InvalidTotal)
    case Some(n) => if n < 0 then Err(NegativeTotal) else Ok(n)
  }

  /** `get_index_doc_count`. */
  function GetIndexDocCount(search: Search, indexName: string): (r: Result<nat, QueryError>)
    ensures search(DocCountQuery(), indexName).Err? ==> r == Err(Repository(search(DocCountQuery(), indexName).error))
    ensures search(DocCountQuery(), indexName).Ok? ==> r == DocCountFromResponse(search(DocCountQuery(), indexName).value)
  {
    match search(DocCountQuery(), indexName)
    case Err(e) => Err(Repository(e))
    case Ok(resp) => DocCountFromResponse(resp)
  }

  /** An exact total of `n` documents is read back as `n`; a negative one is refused. */
  lemma DocCountValues(n: int)
    requires I64_MIN <= n < I64_LIMIT
    ensures var resp := Object(map["hits" := Object(map["total" := Object(map["value" := Int(n)])])]);
      && (n >= 0 ==> DocCountFromResponse(resp) == Ok(n))
      && (n < 0 ==> DocCountFromResponse(resp) == Err(NegativeTotal))
  {
  }

  /**
   * `post_log_index`: the write's outcome (`writeOutcome`, what
   * `post_query_struct` returned) is logged and dropped.
   */
  function PostLogIndex(writeOutcome: Result<(), EsError>, alertIndex: AlertIndex): (r: Result<(), QueryError>)
    ensures r.Ok?
  {
    Ok(())
  }

  /**
   * The `timestamp` bounds both aggregation queries filter on: inclusive at
   * both ends, the end being the caller's timestamp string as given.
   */
  function Bounds(prevStr: string, curStr: string): Json {
    Object(map["gte" := Str(prevStr), "lte" := Str(curStr)])
  }

  /**
   * The shape of the max and min queries: a range filter on `timestamp` and,
   * inside the `query` object as the source writes it, an aggregation of `cnt`.
   */
  function AggQuery(prevStr: string, curStr: string, aggName: string, op: string): Json {
    var aggs := Object(map[aggName := Object(map[op := Object(map["field" := Str("cnt")])])]);
    var range := Object(map["timestamp" := Bounds(prevStr, curStr)]);
    Object(map[
      "size" := Int(0),
      "track_total_hits" := Bool(false),
      "query" := Object(map["range" := range, "aggs" := aggs])])
  }

  /**
   * `calc_time_window(cur_timestamp_utc, agg_term)?` as the caller uses it:
   * the timestamp string is parsed (`parseUtc`), moved back `agg_term_sec`
   * seconds and rendered in UTC; an unparsable timestamp fails the call.
   */
  function WindowStart(config: IndexConfig, curStr: string, parseUtc: string -> Option<Instant>)
    : (r: Result<string, QueryError>)
    ensures r == Err(InvalidTimestamp(curStr)) <==> parseUtc(curStr).None?
    ensures r.Ok? ==> r.value == ConvertDateToStr(CalcTimeWindow(parseUtc(curStr).value, config.aggTermSec), 0)
  {
    match parseUtc(curStr)
    case None => Err(InvalidTimestamp(curStr))
    case Some(cur) => Ok(ConvertDateToStr(CalcTimeWindow(cur, config.aggTermSec), 0))
  }

  /** The max query over the window from `prevStr` to `curStr`. */
  function MaxQuery(prevStr: string, curStr: string): (q: Json)
    ensures TimestampBounds(q) == Bounds(prevStr, curStr)
    ensures Aggregations(q) == Object(map["max_value_in_range" := Object(map["max" := Object(map["field" := Str("cnt")])])])
  {
    AggQueryBounds(prevStr, curStr, "max_value_in_range", "max");
    AggQueryAggregations(prevStr, curStr, "max_value_in_range", "max");
    AggQuery(prevStr, curStr, "max_value_in_range", "max")
  }

  /** The min query over the window from `prevStr` to `curStr`. */
  function MinQuery(prevStr: string, curStr: string): (q: Json)
    ensures TimestampBounds(q) == Bounds(prevStr, curStr)
    ensures Aggregations(q) == Object(map["min_value_in_range" := Object(map["min" := Object(map["field" := Str("cnt")])])])
  {
    AggQueryBounds(prevStr, curStr, "min_value_in_range", "min");
    AggQueryAggregations(prevStr, curStr, "min_value_in_range", "min");
    AggQuery(prevStr, curStr, "min_value_in_range", "min")
  }

  /** The aggregations a query asks for, nested under `query` as the source writes them. */
  function Aggregations(q: Json): Json {
    Index(Index(q, "query"), "aggs")
  }

  /** The query asks for exactly one aggregation: `op` of `cnt`, under `aggName`. */
  lemma AggQueryAggregations(prevStr: string, curStr: string, aggName: string, op: string)
    ensures Aggregations(AggQuery(prevStr, curStr, aggName, op))
      == Object(map[aggName := Object(map[op := Object(map["field" := Str("cnt")])])])
  {
    var aggs := Object(map[aggName := Object(map[op := Object(map["field" := Str("cnt")])])]);
    var range := Object(map["timestamp" := Bounds(prevStr, curStr)]);
    var inner := map["range" := range, "aggs" := aggs];
    var q := AggQuery(prevStr, curStr, aggName, op);
    assert q.fields["query"] == Object(inner);
    assert Index(q, "query") == Object(inner);
  }

  /** The `timestamp` bounds a query filters on. */
  function TimestampBounds(q: Json): Json {
    Index(Index(Index(q, "query"), "range"), "timestamp")
  }

  /** Both queries filter on the same window, from the window start to the caller's timestamp. */
  lemma SameWindow(prevStr: string, curStr: string)
    ensures TimestampBounds(MaxQuery(prevStr, curStr)) == TimestampBounds(MinQuery(prevStr, curStr))
    ensures TimestampBounds(MaxQuery(prevStr, curStr)) == Bounds(prevStr, curStr)
  {
    AggQueryBounds(prevStr, curStr, "min_value_in_range", "min");
  }

  lemma AggQueryBounds(prevStr: string, curStr: string, aggName: string, op: string)
    ensures TimestampBounds(AggQuery(prevStr, curStr, aggName, op)) == Bounds(prevStr, curStr)
  {
    var b := Bounds(prevStr, curStr);
    var aggs := Object(map[aggName := Object(map[op := Object(map["field" := Str("cnt")])])]);
    var inner := map["range" := Object(map["timestamp" := b]), "aggs" := aggs];
    var q := AggQuery(prevStr, curStr, aggName, op);
    assert q.fields["query"] == Object(inner);
    assert Index(q, "query") == Object(inner);
    assert Index(Object(inner), "range") == Object(map["timestamp" := b]);
  }

  /**
   * The bounds are `gte` the rendered window start and `lte` the caller's
   * timestamp string unchanged, and nothing else; the start is never after
   * the end.
   */
  lemma BoundsInclusive(config: IndexConfig, curStr: string, parseUtc: string -> Option<Instant>)
    requires config.aggTermSec >= 0
    ensures var w := WindowStart(config, curStr, parseUtc);
      w.Ok? ==>
        && Bounds(w.value, curStr).Object? && Bounds(w.value, curStr).fields.Keys == {"gte", "lte"}
        && Bounds(w.value, curStr).fields["gte"] == Str(w.value)
        && Bounds(w.value, curStr).fields["lte"] == Str(curStr)
        && CalcTimeWindow(parseUtc(curStr).value, config.aggTermSec) <= parseUtc(curStr).value
  {
    if parseUtc(curStr).Some? {
      WindowNotAfter(parseUtc(curStr).value, config.aggTermSec, 0);
    }
  }

  /** `resp["aggregations"][aggName]["value"].as_f64().unwrap_or(0.0)`. */
  function AggValue(resp: Json, aggName: string): (v: real)
    ensures Index(Index(Index(resp, "aggregations"), aggName), "value").Null? ==> v == 0.0
    ensures AsF64(Index(Index(Index(resp, "aggregations"), aggName), "value")).None? ==> v == 0.0
    ensures AsF64(Index(Index(Index(resp, "aggregations"), aggName), "value")).Some? ==>
      v == AsF64(Index(Index(Index(resp, "aggregations"), aggName), "value")).value
  {
    AsF64(Index(Index(Index(resp, "aggregations"), aggName), "value")).GetOr(0.0)
  }

  /** The fluctuation, in percent, of the maximum over the minimum; 0 when the minimum is not positive. */
  function Fluctuation(minVal: real, maxVal: real): (f: real)
    ensures minVal <= 0.0 ==> f == 0.0
    ensures minVal > 0.0 && maxVal >= minVal ==> f >= 0.0
    ensures minVal > 0.0 && maxVal > minVal ==> f > 0.0
  {
    if minVal > 0.0 then ((maxVal - minVal) / minVal) * 100.0 else 0.0
  }

  /**
   * For a positive minimum the fluctuation exceeds `limit` percent exactly
   * when the maximum exceeds the minimum by more than `limit` percent of it.
   */
  lemma FluctuationExceeds(minVal: real, maxVal: real, limit: real)
    requires minVal > 0.0
    ensures Fluctuation(minVal, maxVal) > limit <==> maxVal - minVal > limit * minVal / 100.0
  {
    var f := Fluctuation(minVal, maxVal);
    assert f * minVal == (maxVal - minVal) * 100.0;
    if f > limit {
      assert f * minVal > limit * minVal;
    }
    if maxVal - minVal > limit * minVal / 100.0 {
      assert f * minVal > limit * minVal;
    }
  }

  /** Equal extremes fluctuate by nothing. */
  lemma FluctuationOfEqual(v: real)
    ensures Fluctuation(v, v) == 0.0
  {
  }

  /**
   * The fluctuation as `get_max_cnt_from_log_index` computes it: the second
   * request sends the max query again and "min" is read from the max response.
   */
  function FluctuationAsWritten(maxResp: Json, minResp: Json): (f: real)
    ensures f == 0.0
  {
    var maybeMax := AggValue(maxResp, "max_value_in_range");
    var maybeMin := AggValue(maxResp, "max_value_in_range");
    FluctuationOfEqual(maybeMax);
    Fluctuation(maybeMin, maybeMax)
  }

  /** The corrected reading: maximum from the max response, minimum from the min response. */
  function FluctuationFromResponses(maxResp: Json, minResp: Json): (f: real)
    ensures var mn, mx := AggValue(minResp, "min_value_in_range"), AggValue(maxResp, "max_value_in_range");
      && (mn <= 0.0 ==> f == 0.0)
      && (mn > 0.0 ==> f == (mx - mn) / mn * 100.0)
  {
    Fluctuation(AggValue(minResp, "min_value_in_range"), AggValue(maxResp, "max_value_in_range"))
  }

  function AggResponse(aggName: string, v: Json): Json {
    Object(map["aggregations" := Object(map[aggName := Object(map["value" := v])])])
  }

  /**
   * A window whose count went from 100 to 150: the intended fluctuation is
   * 50 percent, the one computed as written is 0.
   */
  lemma FluctuationCounterexample()
    ensures FluctuationFromResponses(AggResponse("max_value_in_range", Float(150.0)),
                                     AggResponse("min_value_in_range", Float(100.0))) == 50.0
    ensures FluctuationAsWritten(AggResponse("max_value_in_range", Float(150.0)),
                                 AggResponse("min_value_in_range", Float(100.0))) == 0.0
  {
  }

  /** The corrected reading gives the fluctuation of the two extremes that were asked for. */
  lemma FluctuationFromResponsesReadsBoth(maxVal: real, minVal: real)
    requires minVal > 0.0
    ensures FluctuationFromResponses(AggResponse("max_value_in_range", Float(maxVal)),
                                     AggResponse("min_value_in_range", Float(minVal)))
      == (maxVal - minVal) / minVal * 100.0
  {
  }

  /**
   * `get_max_cnt_from_log_index` as written: the window start is computed
   * from the caller's timestamp, then both requests send the max query to
   * `index_config.index_name()`; either failing fails the call, and the
   * computed value is dropped. `search` answers the first request and
   * `searchAgain` the second, which can fail on its own.
   */
  function GetMaxCntFromLogIndexAsWritten(search: Search, searchAgain: Search, config: IndexConfig,
                                          curStr: string, parseUtc: string -> Option<Instant>)
    : (r: Result<(), QueryError>)
    ensures parseUtc(curStr).None? ==> r == Err(InvalidTimestamp(curStr))
    ensures var w := WindowStart(config, curStr, parseUtc);
      r.Ok? <==> w.Ok? && search(MaxQuery(w.value, curStr), config.indexName).Ok?
                 && searchAgain(MaxQuery(w.value, curStr), config.indexName).Ok?
  {
    match WindowStart(config, curStr, parseUtc)
    case Err(e) => Err(e)
    case Ok(prevStr) =>
      match search(MaxQuery(prevStr, curStr), config.indexName)
      case Err(e) => Err(Repository(e))
      case Ok(maxResp) =>
        match searchAgain(MaxQuery(prevStr, curStr), config.indexName)
        case Err(e) => Err(Repository(e))
        case Ok(_) => Ok(())
  }

  /**
   * The corrected `get_max_cnt_from_log_index`: the max query, then the min
   * query over the same window on the same index, and the fluctuation of
   * their two answers.
   */
  function GetMaxCntFromLogIndex(search: Search, config: IndexConfig, curStr: string,
                                 parseUtc: string -> Option<Instant>)
    : (r: Result<real, QueryError>)
    ensures parseUtc(curStr).None? ==> r == Err(InvalidTimestamp(curStr))
    ensures var w := WindowStart(config, curStr, parseUtc);
      r.Ok? <==> w.Ok? && search(MaxQuery(w.value, curStr), config.indexName).Ok?
                 && search(MinQuery(w.value, curStr), config.indexName).Ok?
    ensures var w := WindowStart(config, curStr, parseUtc);
      r.Ok? ==> r.value == FluctuationFromResponses(
        search(MaxQuery(w.value, curStr), config.indexName).value,
        search(MinQuery(w.value, curStr), config.indexName).value)
  {
    match WindowStart(config, curStr, parseUtc)
    case Err(e) => Err(e)
    case Ok(prevStr) =>
      match search(MaxQuery(prevStr, curStr), config.indexName)
      case Err(e) => Err(Repository(e))
      case Ok(maxResp) =>
        match search(MinQuery(prevStr, curStr), config.indexName)
        case Err(e) => Err(Repository(e))
        case Ok(minResp) => Ok(FluctuationFromResponses(maxResp, minResp))
  }
}
