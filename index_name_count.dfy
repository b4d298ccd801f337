/** Decoding of a terms-aggregation bucket into a name and a count (dto/index_name_count.rs). */
module IndexNameCount {
  import opened Wrappers
  import opened Json

  datatype IndexNameCount = IndexNameCount(name: string, count: nat)

  datatype BucketError = BadKey | BadDocCount

  /** `from_agg_bucket`. */
  function FromAggBucket(bucket: Json): (r: Result<IndexNameCount, BucketError>)
    ensures r == Err(BadKey) <==> Get(bucket, "key").None? || !Get(bucket, "key").value.Str?
    ensures r == Err(BadDocCount) <==>
      Get(bucket, "key").Some? && Get(bucket, "key").value.Str?
      && (Get(bucket, "doc_count").None? || AsU64(Get(bucket, "doc_count").value).None?)
    ensures r.Ok? ==> Get(bucket, "key") == Some(Str(r.value.name))
    ensures r.Ok? ==> Get(bucket, "doc_count") == Some(Int(r.value.count)) && r.value.count < U64_LIMIT
  {
    var key := Get(bucket, "key");
    if key.None? || AsStr(key.value).None? then Err(BadKey)
    else
      var docCount := Get(bucket, "doc_count");
      if docCount.None? then Err(BadDocCount)
      else match AsU64(docCount.value)
        case None => Err(BadDocCount)
        case Some(n) => Ok(IndexNameCount(key.value.s, n))
  }

  /** Only `key` and `doc_count` matter: buckets that agree on them decode alike. */
  lemma OnlyKeyAndDocCount(b1: Json, b2: Json)
    requires Get(b1, "key") == Get(b2, "key")
    requires Get(b1, "doc_count") == Get(b2, "doc_count")
    ensures FromAggBucket(b1) == FromAggBucket(b2)
  {
  }
}
