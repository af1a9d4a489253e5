/**
 * The HTTP segmentation handler: it reads `image_key` and an optional
 * `k_clusters` from the JSON body of the request, answers 400 when the body
 * is not JSON or has no `image_key`, 404 when the input bucket has no such
 * object, and otherwise segments the image and answers 200 with the key it
 * wrote, "segmented/<name>_K<k>.png". Decoding JSON, the store's contents,
 * which stored objects decode as images, and the configured bucket names are
 * parameters.
 */
module SegmentHandler {
  import opened Wrappers
  import opened PyText
  import opened PyValues
  import opened KeyNames
  import opened Storage
  import opened Segmentation

  const DefaultClusters: int := 4
  const BadPayloadMessage := "Missing image_key or invalid JSON in request body"
  const KeyPrefix := "segmented/"

  /** The JSON body of a response. */
  datatype ResponseBody =
    | ErrorBody(error: string)
    | Segmented(inputKey: string, outputBucket: string, outputKey: string, clustersUsed: int)

  datatype Response = Response(statusCode: int, body: ResponseBody)

  /** The key the segmented image is written under: "segmented/" + the file name without its last extension + "_K<k>.png". */
  function OutKey(inKey: string, k: int): (o: string)
    ensures StartsWith(o, KeyPrefix) && EndsWith(o, ".png")
  {
    Affixes(KeyPrefix, KName(Stem(inKey), k), ".png");
    KeyPrefix + KName(Stem(inKey), k) + ".png"
  }

  /** The file name and cluster count an output key was made from; None for keys of another form. */
  function ReadOutKey(o: string): Option<(string, int)>
  {
    if |o| >= |KeyPrefix| + 4 && StartsWith(o, KeyPrefix) && EndsWith(o, ".png") then
      SplitK(o[|KeyPrefix|..|o| - 4])
    else None
  }

  /** The body text of the event, `event.get('body', '{}')`. */
  function RawBody(event: map<string, JsonValue>): JsonValue
  {
    if "body" in event then event["body"] else JStr("{}")
  }

  /**
   * The handler. `loads` is `json.loads` on a string (None when it raises
   * JSONDecodeError), `store` the object store, `images` the stored objects
   * that decode as images, `inputBucket` and `outputBucket` the configured
   * buckets. A Failure is an exception the handler lets escape: only KeyError
   * and JSONDecodeError are caught while reading the request, and only
   * NoSuchKey while reading the image, so a body that is not a string, a body
   * that is not a JSON object, a `k_clusters` that `int()` rejects, a key the
   * storage client refuses, a missing input bucket, an object that is not an
   * image and a cluster count k-means cannot run with all raise.
   */
  function Handle(event: map<string, JsonValue>, loads: string -> Option<JsonValue>, store: Store,
                  images: set<(string, string)>, inputBucket: string, outputBucket: string): (r: Result<Response, PyError>)
    requires loads("{}") == Some(JObject(map[]))
    ensures r.Success? ==> r.value.statusCode in {200, 400, 404}
    ensures r.Success? && r.value.statusCode == 200 ==>
      var b := r.value.body;
      b.Segmented? && Holds(store, inputBucket, b.inputKey) && (inputBucket, b.inputKey) in images
      && 1 <= b.clustersUsed <= PixelCount
      && b.outputBucket == outputBucket && b.outputKey == OutKey(b.inputKey, b.clustersUsed)
  {
    var raw := RawBody(event);
    if !raw.JStr? then Failure(TypeError("the JSON object must be str, bytes or bytearray, not " + TypeName(raw)))
    else
      match loads(raw.s)
      case None => Success(Response(400, ErrorBody(BadPayloadMessage)))
      case Some(body) =>
        match Lookup(body, "image_key")
        case Failure(e) => if e.KeyError? then Success(Response(400, ErrorBody(BadPayloadMessage))) else Failure(e)
        case Success(inKey) =>
          var kValue := if "k_clusters" in body.fields then body.fields["k_clusters"] else JInt(DefaultClusters);
          match IntOf(kValue)
          case Failure(e) => Failure(e)
          case Success(k) =>
            match GetObject(store, JStr(inputBucket), inKey)
            case Fail(e) => if e.NoSuchKey? then Success(Response(404, ErrorBody("Image key not found: " + e.key))) else Failure(e)
            case Pass =>
              match Segment(images, inputBucket, inKey.s, k)
              case Fail(e) => Failure(e)
              case Pass => Success(Response(200, Segmented(inKey.s, outputBucket, OutKey(inKey.s, k), k)))
  }

  /** The decoded request: a JSON object with a string `image_key`, and the cluster count `int()` makes of `k_clusters` (4 when absent). */
  predicate WellFormed(event: map<string, JsonValue>, loads: string -> Option<JsonValue>, key: string, k: int)
  {
    RawBody(event).JStr? && loads(RawBody(event).s).Some? &&
    var body := loads(RawBody(event).s).value;
    body.JObject? && "image_key" in body.fields && body.fields["image_key"] == JStr(key) && key != [] &&
    IntOf(if "k_clusters" in body.fields then body.fields["k_clusters"] else JInt(DefaultClusters)) == Success(k)
  }

  // ---------------------------------------------------------------------------
  // Properties

  /**
   * 400 exactly when the body text is not JSON or decodes to an object without
   * `image_key`; the answer then does not depend on the store, which is not
   * consulted.
   */
  lemma BadRequestCases(event: map<string, JsonValue>, loads: string -> Option<JsonValue>, store: Store, other: Store,
                        images: set<(string, string)>, otherImages: set<(string, string)>,
                        inputBucket: string, outputBucket: string)
    requires loads("{}") == Some(JObject(map[]))
    ensures var r := Handle(event, loads, store, images, inputBucket, outputBucket);
      (r.Success? && r.value.statusCode == 400) <==>
        (RawBody(event).JStr? &&
         (loads(RawBody(event).s).None? ||
          (loads(RawBody(event).s).value.JObject? && "image_key" !in loads(RawBody(event).s).value.fields)))
    ensures var r := Handle(event, loads, store, images, inputBucket, outputBucket);
      r.Success? && r.value.statusCode == 400 ==>
        r.value.body == ErrorBody(BadPayloadMessage) && r == Handle(event, loads, other, otherImages, inputBucket, outputBucket)
  {
  }

  /** An event without a body reads as "{}": no `image_key`, so 400. */
  lemma MissingBodyIsBadRequest(event: map<string, JsonValue>, loads: string -> Option<JsonValue>, store: Store,
                        images: set<(string, string)>, inputBucket: string, outputBucket: string)
    requires loads("{}") == Some(JObject(map[]))
    requires "body" !in event
    ensures Handle(event, loads, store, images, inputBucket, outputBucket) == Success(Response(400, ErrorBody(BadPayloadMessage)))
  {
  }

  /**
   * For a well-formed request the store and the image decide: 200 with the
   * output key when the input bucket holds an object that decodes and k-means
   * runs with k clusters, 404 naming the key when the bucket exists without
   * it, and an exception when there is no such input bucket, when the object
   * is not an image, or when the cluster count is outside 1 to `PixelCount`.
   */
  lemma WellFormedRequest(event: map<string, JsonValue>, loads: string -> Option<JsonValue>, store: Store,
                        images: set<(string, string)>, inputBucket: string, outputBucket: string, key: string, k: int)
    requires loads("{}") == Some(JObject(map[]))
    requires WellFormed(event, loads, key, k)
    ensures Holds(store, inputBucket, key) && (inputBucket, key) in images && 1 <= k <= PixelCount ==>
      Handle(event, loads, store, images, inputBucket, outputBucket)
        == Success(Response(200, Segmented(key, outputBucket, OutKey(key, k), k)))
    ensures inputBucket in store && key !in store[inputBucket] ==>
      Handle(event, loads, store, images, inputBucket, outputBucket)
        == Success(Response(404, ErrorBody("Image key not found: " + key)))
    ensures inputBucket !in store ==>
      Handle(event, loads, store, images, inputBucket, outputBucket) == Failure(NoSuchBucket(inputBucket))
    ensures Holds(store, inputBucket, key) && (inputBucket, key) !in images ==>
      Handle(event, loads, store, images, inputBucket, outputBucket) == Failure(UnidentifiedImageError(key))
    ensures Holds(store, inputBucket, key) && (inputBucket, key) in images && !(1 <= k <= PixelCount) ==>
      Handle(event, loads, store, images, inputBucket, outputBucket) == Failure(KMeans(k).error)
  {
  }

  /**
   * Any answer other than 400 comes from a well-formed request, and it is 200
   * exactly when the object exists, decodes, and the cluster count is one
   * k-means runs with.
   */
  lemma AnsweredRequestIsWellFormed(event: map<string, JsonValue>, loads: string -> Option<JsonValue>, store: Store,
                        images: set<(string, string)>, inputBucket: string, outputBucket: string)
    requires loads("{}") == Some(JObject(map[]))
    ensures var r := Handle(event, loads, store, images, inputBucket, outputBucket);
      r.Success? && r.value.statusCode != 400 ==>
        var b := loads(RawBody(event).s).value;
        var key := b.fields["image_key"].s;
        var k := IntOf(if "k_clusters" in b.fields then b.fields["k_clusters"] else JInt(DefaultClusters)).value;
        WellFormed(event, loads, key, k)
        && (r.value.statusCode == 200 <==>
              Holds(store, inputBucket, key) && (inputBucket, key) in images && 1 <= k <= PixelCount)
  {
    var r := Handle(event, loads, store, images, inputBucket, outputBucket);
    if r.Success? && r.value.statusCode != 400 {
      var raw := RawBody(event);
      assert raw.JStr? && loads(raw.s).Some?;
      var b := loads(raw.s).value;
      assert Lookup(b, "image_key").Success?;
      var kValue := if "k_clusters" in b.fields then b.fields["k_clusters"] else JInt(DefaultClusters);
      assert IntOf(kValue).Success?;
      assert GetObject(store, JStr(inputBucket), b.fields["image_key"]).Pass? || r.value.statusCode == 404;
    }
  }

  /** A request naming an existing image and no `k_clusters` is segmented with 4 clusters. */
  lemma DefaultClusterCount(event: map<string, JsonValue>, loads: string -> Option<JsonValue>, store: Store,
                        images: set<(string, string)>, inputBucket: string, outputBucket: string, key: string)
    requires loads("{}") == Some(JObject(map[]))
    requires RawBody(event).JStr? && loads(RawBody(event).s).Some?
    requires var b := loads(RawBody(event).s).value;
      b.JObject? && "image_key" in b.fields && b.fields["image_key"] == JStr(key) && "k_clusters" !in b.fields
    requires key != [] && Holds(store, inputBucket, key) && (inputBucket, key) in images
    ensures Handle(event, loads, store, images, inputBucket, outputBucket)
      == Success(Response(200, Segmented(key, outputBucket, OutKey(key, 4), 4)))
  {
  }

  /** A `k_clusters` that `int()` rejects is not caught: the handler raises instead of answering 400. */
  lemma BadClusterCountRaises(event: map<string, JsonValue>, loads: string -> Option<JsonValue>, store: Store,
                        images: set<(string, string)>, inputBucket: string, outputBucket: string)
    requires loads("{}") == Some(JObject(map[]))
    requires RawBody(event).JStr? && loads(RawBody(event).s).Some?
    requires var b := loads(RawBody(event).s).value;
      b.JObject? && "image_key" in b.fields && "k_clusters" in b.fields && IntOf(b.fields["k_clusters"]).Failure?
    ensures var r := Handle(event, loads, store, images, inputBucket, outputBucket);
      r.Failure? && (r.error.ValueError? || r.error.TypeError?)
  {
  }

  /** The output key gives back the file name without its extension and the cluster count. */
  lemma OutKeyRoundTrip(inKey: string, k: int)
    ensures ReadOutKey(OutKey(inKey, k)) == Some((Stem(inKey), k))
  {
    ReadOutKeyFraming(KName(Stem(inKey), k));
    SplitKRoundTrip(Stem(inKey), k);
  }

  lemma ReadOutKeyFraming(t: string)
    ensures ReadOutKey(KeyPrefix + t + ".png") == SplitK(t)
  {
    var o := KeyPrefix + t + ".png";
    Affixes(KeyPrefix, t, ".png");
    assert o[|KeyPrefix|..|o| - 4] == t;
  }

  /** Different requests (file names without extension, or cluster counts) are written under different keys. */
  lemma OutKeyInjective(a: string, ka: int, b: string, kb: int)
    requires OutKey(a, ka) == OutKey(b, kb)
    ensures Stem(a) == Stem(b) && ka == kb
  {
    OutKeyRoundTrip(a, ka);
    OutKeyRoundTrip(b, kb);
  }

  /** The same file name in two directories is written under the same output key, so the later result replaces the earlier. */
  lemma OutKeyIgnoresDirectory(d1: string, d2: string, name: string, k: int)
    requires '/' !in name
    ensures OutKey(d1 + "/" + name, k) == OutKey(d2 + "/" + name, k) == OutKey(name, k)
  {
    BasenameOfJoined(d1, name);
    BasenameOfJoined(d2, name);
    BasenameIsLastComponent(name);
  }
}
