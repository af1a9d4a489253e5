/**
 * The storage-triggered segmentation handler: it reads the bucket and key of
 * the first record of a storage notification, reads that object, segments it
 * with the configured number of clusters and writes the result to the output
 * bucket as "<name>_segmented_K<k>.png". It catches nothing: a notification
 * of another shape, a missing object, an object that is not an image or a
 * configured cluster count k-means cannot run with raises. The configuration
 * is read once, when the handler is loaded, from two environment variables.
 */
module SegmentTrigger {
  import opened Wrappers
  import opened PyText
  import opened PyValues
  import opened KeyNames
  import opened Storage
  import opened Segmentation

  const DefaultClusters: int := 4
  const Marker := "_segmented"

  /** The values the handler reads from its environment when it is loaded. */
  datatype Config = Config(clusters: int, outputBucket: string)

  /**
   * `int(os.getenv('NUM_CLUSTERS', 4))` and then `os.environ['OUTPUT_BUCKET']`;
   * an unset variable is None. A cluster count `int()` rejects raises
   * ValueError, an unset output bucket KeyError.
   */
  function Configure(numClusters: Option<string>, outputBucket: Option<string>): (r: Result<Config, PyError>)
    ensures r.Success? <==> (numClusters.None? || ParseInt(numClusters.value).Some?) && outputBucket.Some?
    ensures numClusters.Some? && ParseInt(numClusters.value).None? ==> r.Failure? && r.error.ValueError?
  {
    var k := if numClusters.None? then IntOf(JInt(DefaultClusters)) else IntOf(JStr(numClusters.value));
    match k
    case Failure(e) => Failure(e)
    case Success(clusters) =>
      if outputBucket.None? then Failure(KeyError("OUTPUT_BUCKET"))
      else Success(Config(clusters, outputBucket.value))
  }

  /** The JSON body of the handler's answer. */
  datatype TriggerBody = TriggerBody(inputBucket: string, inputKey: string, outputBucket: string, outputKey: string)

  datatype Response = Response(statusCode: int, body: TriggerBody)

  /** `v[path[0]][path[1]]...`: successive dict lookups, the first failure raising. */
  function Dig(v: JsonValue, path: seq<string>): (r: Result<JsonValue, PyError>)
    ensures r.Failure? ==> r.error.KeyError? || r.error.TypeError?
    decreases |path|
  {
    if path == [] then Success(v)
    else
      match Lookup(v, path[0])
      case Failure(e) => Failure(e)
      case Success(w) => Dig(w, path[1..])
  }

  /** `event['Records'][0][...path]`. */
  function RecordField(event: JsonValue, path: seq<string>): (r: Result<JsonValue, PyError>)
    ensures r.Failure? ==> r.error.KeyError? || r.error.TypeError? || r.error.IndexError?
  {
    match Lookup(event, "Records")
    case Failure(e) => Failure(e)
    case Success(records) =>
      match First(records)
      case Failure(e) => Failure(e)
      case Success(record) => Dig(record, path)
  }

  const BucketPath: seq<string> := ["s3", "bucket", "name"]
  const KeyPath: seq<string> := ["s3", "object", "key"]

  /** The key the segmented image is written under: the file name without its last extension + "_segmented_K<k>.png". */
  function TriggerOutKey(inKey: string, k: int): (o: string)
    ensures StartsWith(o, Stem(inKey) + Marker + "_K") && EndsWith(o, ".png")
  {
    Affixes(Stem(inKey) + Marker + "_K", IntToString(k), ".png");
    KName(Stem(inKey) + Marker, k) + ".png"
  }

  /** The file name and cluster count an output key was made from; None for keys of another form. */
  function ReadTriggerOutKey(o: string): Option<(string, int)>
  {
    if |o| >= 4 && EndsWith(o, ".png") then
      match SplitK(o[..|o| - 4])
      case None => None
      case Some(pk) =>
        if EndsWith(pk.0, Marker) then Some((pk.0[..|pk.0| - |Marker|], pk.1)) else None
    else None
  }

  /**
   * The handler: the bucket and key of the first record, the object read from
   * the store and segmented with the configured cluster count (any failure
   * escapes; `images` holds the stored objects that decode as images), and 200
   * with the input, the output bucket and the output key.
   */
  function Handle(config: Config, event: JsonValue, store: Store, images: set<(string, string)>): (r: Result<Response, PyError>)
    ensures r.Success? ==>
      r.value.statusCode == 200 &&
      var b := r.value.body;
      RecordField(event, BucketPath) == Success(JStr(b.inputBucket)) &&
      RecordField(event, KeyPath) == Success(JStr(b.inputKey)) &&
      Holds(store, b.inputBucket, b.inputKey) && (b.inputBucket, b.inputKey) in images &&
      1 <= config.clusters <= PixelCount &&
      b.outputBucket == config.outputBucket && b.outputKey == TriggerOutKey(b.inputKey, config.clusters)
  {
    match RecordField(event, BucketPath)
    case Failure(e) => Failure(e)
    case Success(bucket) =>
      match RecordField(event, KeyPath)
      case Failure(e) => Failure(e)
      case Success(key) =>
        match GetObject(store, bucket, key)
        case Fail(e) => Failure(e)
        case Pass =>
          match Segment(images, bucket.s, key.s, config.clusters)
          case Fail(e) => Failure(e)
          case Pass =>
            Success(Response(200, TriggerBody(bucket.s, key.s, config.outputBucket,
                                              TriggerOutKey(key.s, config.clusters))))
  }

  // ---------------------------------------------------------------------------
  // Properties

  /** Without NUM_CLUSTERS the handler uses 4 clusters, and a printed integer in it is read back exactly. */
  lemma ConfiguredClusters(k: int, outputBucket: string)
    ensures Configure(None, Some(outputBucket)) == Success(Config(4, outputBucket))
    ensures Configure(Some(IntToString(k)), Some(outputBucket)) == Success(Config(k, outputBucket))
  {
    IntStringRoundTrip(k);
  }

  /** The cluster count is read first: a bad NUM_CLUSTERS is reported even when OUTPUT_BUCKET is unset as well. */
  lemma ClusterCountCheckedFirst(numClusters: string)
    requires ParseInt(numClusters).None?
    ensures Configure(Some(numClusters), None).Failure? && Configure(Some(numClusters), None).error.ValueError?
  {
  }

  /** A notification record whose nested fields lie along `path`. */
  function Nest(path: seq<string>, leaf: JsonValue): JsonValue
    decreases |path|
  {
    if path == [] then leaf else JObject(map[path[0] := Nest(path[1..], leaf)])
  }

  /** Looking up the fields of a nested record along its own path finds the leaf. */
  lemma {:induction false} DigNest(path: seq<string>, leaf: JsonValue)
    ensures Dig(Nest(path, leaf), path) == Success(leaf)
    decreases |path|
  {
    if path != [] {
      DigNest(path[1..], leaf);
    }
  }

  /** The first record of a notification about `key` in `bucket`. */
  function Record(bucket: string, key: string): JsonValue
  {
    JObject(map["s3" := JObject(map["bucket" := JObject(map["name" := JStr(bucket)]),
                                     "object" := JObject(map["key" := JStr(key)])])])
  }

  lemma RecordNames(bucket: string, key: string)
    ensures Dig(Record(bucket, key), BucketPath) == Success(JStr(bucket))
    ensures Dig(Record(bucket, key), KeyPath) == Success(JStr(key))
  {
    var s3 := Record(bucket, key).fields["s3"];
    assert BucketPath == ["s3"] + ["bucket", "name"] && KeyPath == ["s3"] + ["object", "key"];
    assert Dig(s3, ["bucket", "name"]) == Success(JStr(bucket)) by {
      assert ["bucket", "name"][1..] == ["name"];
    }
    assert Dig(s3, ["object", "key"]) == Success(JStr(key)) by {
      assert ["object", "key"][1..] == ["key"];
    }
  }

  /**
   * A notification whose first record names a stored image is answered with
   * 200 and the expected output key when the configured cluster count is one
   * k-means runs with.
   */
  lemma NotificationHandled(config: Config, bucket: string, key: string, more: seq<JsonValue>, store: Store,
                            images: set<(string, string)>)
    requires key != [] && Holds(store, bucket, key) && (bucket, key) in images && 1 <= config.clusters <= PixelCount
    ensures Handle(config, JObject(map["Records" := JArray([Record(bucket, key)] + more)]), store, images)
      == Success(Response(200, TriggerBody(bucket, key, config.outputBucket, TriggerOutKey(key, config.clusters))))
  {
    RecordNames(bucket, key);
  }

  /**
   * A notification without records raises IndexError, a missing object
   * NoSuchKey, and a stored object that is not an image UnidentifiedImageError:
   * nothing is caught.
   */
  lemma FailuresEscape(config: Config, event: JsonValue, store: Store, images: set<(string, string)>)
    ensures event == JObject(map["Records" := JArray([])]) ==>
      Handle(config, event, store, images) == Failure(IndexError("list index out of range"))
    ensures RecordField(event, BucketPath).Success? && RecordField(event, KeyPath).Success? ==>
      var bucket := RecordField(event, BucketPath).value;
      var key := RecordField(event, KeyPath).value;
      bucket.JStr? && key.JStr? && key.s != [] && bucket.s in store && key.s !in store[bucket.s] ==>
        Handle(config, event, store, images) == Failure(NoSuchKey(key.s))
    ensures RecordField(event, BucketPath).Success? && RecordField(event, KeyPath).Success? ==>
      var bucket := RecordField(event, BucketPath).value;
      var key := RecordField(event, KeyPath).value;
      bucket.JStr? && key.JStr? && key.s != [] && Holds(store, bucket.s, key.s) && (bucket.s, key.s) !in images ==>
        Handle(config, event, store, images) == Failure(UnidentifiedImageError(key.s))
  {
  }

  /**
   * NUM_CLUSTERS is accepted whatever integer it holds, but one outside 1 to
   * `PixelCount` (0, say) makes every notification about a stored image raise
   * the ValueError of k-means.
   */
  lemma UnusableClusterCountRaises(k: int, outputBucket: string, bucket: string, key: string, more: seq<JsonValue>,
                                   store: Store, images: set<(string, string)>)
    requires !(1 <= k <= PixelCount)
    requires key != [] && Holds(store, bucket, key) && (bucket, key) in images
    ensures var c := Configure(Some(IntToString(k)), Some(outputBucket));
      c.Success? &&
      Handle(c.value, JObject(map["Records" := JArray([Record(bucket, key)] + more)]), store, images)
        == Failure(KMeans(k).error) &&
      KMeans(k).error.ValueError?
  {
    ConfiguredClusters(k, outputBucket);
    RecordNames(bucket, key);
  }

  /** The output key gives back the file name without its extension and the cluster count. */
  lemma TriggerOutKeyRoundTrip(inKey: string, k: int)
    ensures ReadTriggerOutKey(TriggerOutKey(inKey, k)) == Some((Stem(inKey), k))
  {
    var p := Stem(inKey) + Marker;
    var t := KName(p, k);
    var o := TriggerOutKey(inKey, k);
    assert o[|o| - 4..] == ".png";
    assert o[..|o| - 4] == t;
    SplitKRoundTrip(p, k);
    assert p[|p| - |Marker|..] == Marker;
    assert p[..|p| - |Marker|] == Stem(inKey);
  }

  /** Different file names without extension, or different cluster counts, give different output keys. */
  lemma TriggerOutKeyInjective(a: string, ka: int, b: string, kb: int)
    requires TriggerOutKey(a, ka) == TriggerOutKey(b, kb)
    ensures Stem(a) == Stem(b) && ka == kb
  {
    TriggerOutKeyRoundTrip(a, ka);
    TriggerOutKeyRoundTrip(b, kb);
  }
}
