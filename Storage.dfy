/**
 * The object store as the handlers see it: a map from bucket name to the keys
 * it holds. Reading an object validates the parameters first (a bucket or key
 * that is not a string, or an empty key, is refused before any request), then
 * fails with NoSuchBucket or NoSuchKey when the object is not there.
 */
module Storage {
  import opened Wrappers
  import opened PyValues

  type Store = map<string, set<string>>

  /** True when `store` holds `key` in `bucket`. */
  predicate Holds(store: Store, bucket: string, key: string)
  {
    bucket in store && key in store[bucket]
  }

  /** `s3.get_object(Bucket=bucket, Key=key)`, up to the object's contents. */
  function GetObject(store: Store, bucket: JsonValue, key: JsonValue): (r: Outcome<PyError>)
    ensures r.Pass? <==> bucket.JStr? && key.JStr? && key.s != [] && Holds(store, bucket.s, key.s)
    ensures r.Fail? && r.error.NoSuchKey? <==>
      bucket.JStr? && key.JStr? && key.s != [] && bucket.s in store && key.s !in store[bucket.s]
    ensures r.Fail? && r.error.NoSuchKey? ==> r.error.key == key.s
    ensures r.Fail? && !r.error.NoSuchKey? ==> r.error.ParamValidationError? || r.error.NoSuchBucket?
  {
    if !bucket.JStr? then Fail(ParamValidationError("Invalid type for parameter Bucket, type: " + TypeName(bucket)))
    else if !key.JStr? then Fail(ParamValidationError("Invalid type for parameter Key, type: " + TypeName(key)))
    else if key.s == [] then Fail(ParamValidationError("Invalid length for parameter Key, value: 0, valid min length: 1"))
    else if bucket.s !in store then Fail(NoSuchBucket(bucket.s))
    else if key.s !in store[bucket.s] then Fail(NoSuchKey(key.s))
    else Pass
  }
}
