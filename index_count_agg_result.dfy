/**
 * Decoding of a terms-aggregation bucket whose `est_cnt` top-metrics
 * sub-aggregation holds the sample of interest (dto/index_count_agg_result.rs).
 */
module IndexCountAggResult {
  import opened Wrappers
  import opened Json

  datatype IndexCountAggResult = IndexCountAggResult(indexName: string, docCount: nat, cnt: nat, timestamp: string)

  /** The check that failed, in the order the decoder makes them. */
  datatype AggError = MissingKey | MissingDocCount | MissingMetrics | MissingCnt | MissingTimestamp

  /** `bucket.est_cnt.top[0].metrics`, if every step of the path exists. */
  function Metrics(bucket: Json): Option<Json> {
    GetOpt(
      match GetOpt(Get(bucket, "est_cnt"), "top")
      case None => None
      case Some(top) => At(top, 0),
      "metrics")
  }

  /** `from_agg_bucket`. */
  function FromAggBucket(bucket: Json): (r: Result<IndexCountAggResult, AggError>)
    ensures r == Err(MissingKey) <==> Get(bucket, "key").None? || !Get(bucket, "key").value.Str?
    ensures r.Ok? ==> Get(bucket, "key") == Some(Str(r.value.indexName))
    ensures r.Ok? ==> Get(bucket, "doc_count") == Some(Int(r.value.docCount))
  {
    var key := Get(bucket, "key");
    if key.None? || AsStr(key.value).None? then Err(MissingKey)
    else
      var docCount := Get(bucket, "doc_count");
      if docCount.None? || AsU64(docCount.value).None? then Err(MissingDocCount)
      else
        var metrics := Metrics(bucket);
        if metrics.None? then Err(MissingMetrics)
        else
          var cnt := Get(metrics.value, "cnt");
          if cnt.None? || AsU64(cnt.value).None? then Err(MissingCnt)
          else
            var ts := Get(metrics.value, "timestamp");
            if ts.None? || AsStr(ts.value).None? then Err(MissingTimestamp)
            else Ok(IndexCountAggResult(key.value.s, docCount.value.i, cnt.value.i, ts.value.s))
  }

  /** A bucket whose key is a string but whose doc_count is missing or not a u64 fails with MissingDocCount. */
  lemma DocCountError(bucket: Json)
    requires Get(bucket, "key").Some? && Get(bucket, "key").value.Str?
    ensures FromAggBucket(bucket) == Err(MissingDocCount) <==>
      Get(bucket, "doc_count").None? || AsU64(Get(bucket, "doc_count").value).None?
  {
  }

  /** With key and doc_count valid, a missing `est_cnt.top[0].metrics` fails with MissingMetrics. */
  lemma MetricsError(bucket: Json)
    requires Get(bucket, "key").Some? && Get(bucket, "key").value.Str?
    requires Get(bucket, "doc_count").Some? && AsU64(Get(bucket, "doc_count").value).Some?
    ensures FromAggBucket(bucket) == Err(MissingMetrics) <==> Metrics(bucket).None?
  {
  }

  /** With metrics present, a non-u64 `cnt` or a non-string `timestamp` is an error. */
  lemma MetricFieldErrors(bucket: Json)
    requires Get(bucket, "key").Some? && Get(bucket, "key").value.Str?
    requires Get(bucket, "doc_count").Some? && AsU64(Get(bucket, "doc_count").value).Some?
    requires Metrics(bucket).Some?
    ensures var m := Metrics(bucket).value;
      && (FromAggBucket(bucket) == Err(MissingCnt) <==> Get(m, "cnt").None? || AsU64(Get(m, "cnt").value).None?)
      && (FromAggBucket(bucket).Ok? <==>
            Get(m, "cnt").Some? && AsU64(Get(m, "cnt").value).Some?
            && Get(m, "timestamp").Some? && Get(m, "timestamp").value.Str?)
  {
  }

  /** On success every field comes from the bucket, cnt and timestamp from `top[0].metrics`. */
  lemma FromAggBucketFields(bucket: Json)
    requires FromAggBucket(bucket).Ok?
    ensures var r := FromAggBucket(bucket).value;
      && Metrics(bucket).Some?
      && Get(Metrics(bucket).value, "cnt") == Some(Int(r.cnt))
      && Get(Metrics(bucket).value, "timestamp") == Some(Str(r.timestamp))
  {
  }

  /** Only the first entry of `top` is consulted: the entries after it never matter. */
  lemma OnlyFirstTopEntry(bucket: Json, rest: seq<Json>)
    requires bucket.Object? && "est_cnt" in bucket.fields
    requires var ec := bucket.fields["est_cnt"];
      ec.Object? && "top" in ec.fields && ec.fields["top"].Array? && |ec.fields["top"].items| >= 1
    ensures var ec := bucket.fields["est_cnt"];
      var top := ec.fields["top"].items;
      var top' := Array([top[0]] + rest);
      var bucket' := Object(bucket.fields["est_cnt" := Object(ec.fields["top" := top'])]);
      FromAggBucket(bucket') == FromAggBucket(bucket)
  {
    var ec := bucket.fields["est_cnt"];
    var top := ec.fields["top"].items;
    var top' := Array([top[0]] + rest);
    var bucket' := Object(bucket.fields["est_cnt" := Object(ec.fields["top" := top'])]);
    assert Metrics(bucket') == Metrics(bucket);
  }
}
