# Image segmentation service and its load tests, in Dafny

This project models the logic of a small image-segmentation service together with the tools that exercise it, and proves properties of that model. The parts are:

- **The load test** (`tests/test.py`, `tests/testBuilder.py`). A `Test` object holds a quota of requests still to send for three image categories: small, medium and large. It spends the quota batch by batch. Each batch has at most `conccurent` slots. Each slot picks a category by a circular scan from a random start, decrements that category's count, and draws a cluster count and an image number. A fluent `TestBuilder` validates each setting. Its `build`, as written, raises TypeError instead of returning a test (see Findings); the model also gives the corrected `build`, which returns the configured `Test`.
- **The Locust user** (`tests/locustfile.py`). It picks a category by a cumulative-probability scan of a uniform draw, builds a request body, and classifies the response.
- **The HTTP segmentation handler** (`lambda_function.py`). It answers 400, 404 or 200, or lets an exception escape, and names its output object `segmented/<name>_K<k>.png`.
- **The segmentation step** both handlers share: the stored object must decode as an image, and k-means on the 256 x 256 resized image runs only with 1 to 65536 clusters.
- **The storage-triggered handler** (`lamda.py`). It configures its cluster count from the environment, reads the first notification record, and names its output object `<name>_segmented_K<k>.png`.
- **The uploader's naming rules** (`s3-uploader/uploader.py`). These are the content type sent for a file and the public address reported for it.

Modules:

| module | models |
|---|---|
| `Wrappers` | `Option`, `Result` and `Outcome`: a missing value, and a value or the exception raised instead |
| `PyText` | The string built-ins the code relies on: `os.path.basename`, `os.path.splitext`, `str.lower`, `str.startswith`, `str(int)` and `int(str)` |
| `PyValues` | Decoded JSON values, Python truthiness, `v[key]`, `v[0]`, the built-in `int()`, and the exception kinds that can escape |
| `Categories` | The index map 0 → "small", 1 → "medium", 2 → "large" |
| `LoadTest` | `class Test`. The `counter` list is a field of type `Pool`, a sequence of exactly three counts that the methods reassign. The pure functions `Run`/`Fill` specify the two nested loops. |
| `LoadTestBuilder` | `class TestBuilder` and its setters; Python's keyword-argument binding for the `Test(...)` call |
| `Locust` | The category pick (a loop, as in the source), the request body, and the response verdict |
| `Storage` | The object store seen by the handlers: which buckets exist and the keys each one holds. Reading an object validates its parameters first. |
| `KeyNames` | The shared `<text>_K<k>` suffix of both output keys, and reading it back |
| `Segmentation` | Whether the segmentation step raises: an object that is not an image, or a cluster count k-means cannot run with |
| `SegmentHandler` | The HTTP handler's routing and output key |
| `SegmentTrigger` | The triggered handler's configuration, record access, output key and answer |
| `Uploader` | Content type by extension; the object URL |

Random draws are parameters. `random.randint` in the load test becomes a sequence of `Draw(start, k, n)` values. `random.random()` in the Locust user becomes a real `r`. `json.loads` becomes a function parameter. The store's contents, the set of stored objects that decode as images, and the environment variables become parameters too. The Locust probabilities are exact reals, so the running sums are exactly 0.3, 0.8 and 1.0.

Where the code departs from what its comments and names suggest, the model follows the code:
- The load test's image name ends in a stray `)`.
- The Locust user falls back to "large" only when no running sum reaches the draw.
- `with_url` only checks for the prefix "http".

## Model

| member | source | states |
|---|---|---|
| `LoadTest.Test.constructor` | tests/test.py:8-13 | The quota is `[small, medium, large]`; the k-range, concurrency and URL are stored exactly as passed, with no checks |
| `LoadTest.FirstAvailable` | tests/test.py:26-29 | The category the circular scan settles on is an index below 3 whose count is not zero |
| `LoadTest.VisitCovers` | tests/test.py:26-29 | From any start, the scan's three positions are the three categories, each exactly once |
| `LoadTest.ScanSkipsZeros` | tests/test.py:26-29 | Every category the scan passes before the one it returns has a zero count |
| `LoadTest.Test.FirstAvailableIndex` | tests/test.py:26-29 | The in-place scan loop needs some non-zero count to stop. It returns an index whose count is not zero, all the positions it passed hold zero, and it agrees with `FirstAvailable` |
| `LoadTest.TakeSlot` | tests/test.py:36-39 | A slot takes from a category whose count is positive, with the draw's k and image number |
| `LoadTest.Took` | tests/test.py:37 | Decrementing the chosen count keeps every count non-negative and lowers the sum by exactly one |
| `LoadTest.ImageName` | tests/test.py:39 | The image name "<category>_<n>)" with the stray ')'; its partner `LoadTest.ImageNameReadsBack` proves it reads back to the category prefix and n |
| `LoadTest.Test.TakeOne` | tests/test.py:36-39 | One slot: the result is `TakeSlot` of the old quota, and the new quota is that quota with only the chosen entry decremented by one |
| `LoadTest.Prefix` | tests/test.py:35-42 | After `j` slots of a batch there are exactly `j` slots, and the quota is non-negative and has lost `j` |
| `LoadTest.Fill` | tests/test.py:35-42 | The inner loop never drives a count negative |
| `LoadTest.Run` | tests/test.py:33-54 | The whole run never drives a count negative |
| `LoadTest.Test.FillBatch` | tests/test.py:35-42 | The inner loop forms one batch of exactly `min(concurrency, sum)` slots, and the batch and the new quota are `Prefix` of the old quota. The quota sum falls by the batch size. The whole run from the old quota is this batch followed by the run from the new quota on the remaining draws; with no slots, it is the end of the run |
| `LoadTest.Test.RunTests` | tests/test.py:33-54 | With min_k > max_k, a non-empty quota and concurrency at least 1, the first slot's `randint` raises ValueError after one count was decremented; exactly then it fails. Otherwise the outer loop forms the batches and leaves the quota exactly as the function `Run` does from the initial quota, and every slot asks for a category below 3, k in [min_k, max_k] and n in [1, 200] |
| `LoadTest.PrefixFill` | tests/test.py:35-42 | After `j` slots the inner loop continues from the quota and the slots of `Prefix`, with `m - j` slots still allowed |
| `LoadTest.RunBatches` | tests/test.py:33-42 | A run from a non-empty quota is a first batch of `min(concurrency, sum)` slots followed by the run on what that batch leaves; a first batch with no slots ends the run |
| `LoadTest.PrefixDeducts` | tests/test.py:36-37 | Each category's count falls by exactly the number of slots in the batch prefix that took from it |
| `LoadTest.PrefixFollows` | tests/test.py:36-39 | The j-th slot of a batch uses the j-th draw |
| `LoadTest.RunIdle` | tests/test.py:52-54 | With no positive concurrency no batch is formed, and the loop exits with the quota untouched |
| `LoadTest.RunDrains` | tests/test.py:33-42 | With concurrency at least 1 the run ends with every count at zero. It forms exactly as many slots as the quota held, and exactly `c[i]` of them are of category `i` |
| `LoadTest.RunBatchSizes` | tests/test.py:35-42 | Every batch has at least one and at most `concurrency` slots, and every batch but the last has exactly `concurrency` |
| `LoadTest.RunFollowsDraws` | tests/test.py:36-40 | Over the whole run, the j-th slot has the j-th draw's k and an image number from the j-th draw |
| `LoadTest.RunSlotsInRange` | tests/test.py:38-39 | With draws in range, every slot of the run has a category below 3, k in [min_k, max_k] and an image number n in [1, 200] |
| `LoadTest.ImageNameReadsBack` | tests/test.py:39 | A slot's image name starts with "<category>_", ends in the stray ")", and the text between parses back to the drawn number |
| `LoadTest.RunMonotone` | tests/test.py:37 | No count ends a run above where it started |
| `LoadTest.RunCounts` | tests/test.py:36-37 | Over a whole run, category `i` loses exactly as many requests as there are slots of category `i` |
| `LoadTestBuilder.TestBuilder.constructor` | tests/testBuilder.py:4-11 | A fresh builder has counts 0/0/0, k-range [1, 10], concurrency 1 and no URL |
| `LoadTestBuilder.TestBuilder.WithCounts` | tests/testBuilder.py:13-20 | Succeeds exactly when all three counts are non-negative and then sets exactly those three. Otherwise it raises ValueError with the source's message and changes nothing |
| `LoadTestBuilder.TestBuilder.WithKRange` | tests/testBuilder.py:22-28 | Succeeds exactly when 0 < k_min <= k_max and then sets exactly the two bounds. Otherwise it raises ValueError and changes nothing |
| `LoadTestBuilder.TestBuilder.WithConcurrentRequests` | tests/testBuilder.py:30-35 | Succeeds exactly when the number is positive and then sets only it. Otherwise it raises ValueError and changes nothing |
| `LoadTestBuilder.TestBuilder.WithUrl` | tests/testBuilder.py:37-42 | Succeeds exactly when the string starts with "http" and then sets only the URL. Otherwise it raises ValueError and changes nothing |
| `LoadTestBuilder.TestBuilder.Prepare` | tests/testBuilder.py:46-52 | No URL raises ValueError and changes nothing. All-zero counts become small = 1 in the builder's own field; other counts pass through unchanged |
| `LoadTestBuilder.FirstUnexpected` | tests/testBuilder.py:54-62 | Keyword binding fails exactly when some keyword names no parameter, and the reported keyword is such a keyword |
| `LoadTestBuilder.BuildKeywordsRejected` | tests/testBuilder.py:60 | The keyword `concurrent` that `build` passes names no parameter of `Test.__init__`, so binding stops on it |
| `LoadTestBuilder.TestBuilder.Build` | tests/testBuilder.py:44-62 | As written: no URL raises ValueError. Otherwise the coercion happens and the call raises TypeError for the keyword `concurrent`, so no test is ever built |
| `LoadTestBuilder.CorrectedKeywordsBind` | tests/test.py:8 | With `conccurent`, every keyword binds and each initializer parameter is named exactly once |
| `LoadTestBuilder.TestBuilder.BuildCorrected` | tests/testBuilder.py:44-62 | With the keyword the initializer expects, the fresh test gets the builder's settings. From setter-validated settings it has a non-negative, non-empty quota, 0 < min_k <= max_k and concurrency >= 1 |
| `LoadTestBuilder.UrlCheckIsPrefixOnly` | tests/testBuilder.py:39 | "httpx" and "http-not-a-url" are accepted; "ftp://host", "HTTP://host" and "htt" are not |
| `Locust.FirstReach` | tests/locustfile.py:29-33 | The category found is the first whose running sum reaches r; all earlier sums stay below r |
| `Locust.CategoryFor` | tests/locustfile.py:29-35 | The category picked is always one of the three |
| `Locust.LocustImageName` | tests/locustfile.py:32-35 | The image name "<category>_<n>.jpg"; its partner `Locust.ImageNameReadsBack` proves it reads back to the category prefix and n |
| `Locust.ChooseImage` | tests/locustfile.py:25-35 | The loop with its running sum and early exit names the image "<category>_<n>.jpg" for the category `CategoryFor(r)` |
| `Locust.Request` | tests/locustfile.py:37-41 | For draws in the `randint` ranges (n in [1, 200], k in [2, 8]), the body asks for the image of `CategoryFor(r)` with `k_clusters` = k |
| `Locust.CumulativeValues` | tests/locustfile.py:5 | The running sums of the probabilities are 0.3, 0.8 and 1.0 |
| `Locust.CategoryBands` | tests/locustfile.py:29-35 | r <= 0.3 is small, 0.3 < r <= 0.8 is medium, and anything above is large |
| `Locust.CategoryIsFirstReach` | tests/locustfile.py:29-35 | The pick is the first category whose running sum reaches r; only when none does is it the fallback "large" |
| `Locust.ImageNameReadsBack` | tests/locustfile.py:32-35 | The image name starts with "<category>_" for the picked category, ends in ".jpg", and the text between parses back to the drawn number |
| `Locust.Classify` | tests/locustfile.py:44-58 | The verdict of a response; its partner `Locust.ClassifyCases` proves each of the four verdicts holds exactly on its condition |
| `Locust.ClassifyCases` | tests/locustfile.py:43-58 | Success iff status 200 and a truthy JSON value. The three failures (falsy JSON, not JSON, other status) each hold exactly on their condition, so the four verdicts are exclusive and exhaustive |
| `Locust.FalsyJsonFails` | tests/locustfile.py:47-52 | `{}`, `[]`, 0, false and null are failures even with status 200 |
| `PyValues.Lookup` | lambda_function.py:38 | `v[key]` succeeds exactly on a dict holding the key and gives its value; a dict without the key raises KeyError |
| `PyValues.First` | lamda.py:34 | `v[0]` gives a list's first item; an empty list raises IndexError |
| `PyValues.Truthy` | tests/locustfile.py:47 | Python truthiness of a decoded JSON value; its partner `Locust.FalsyJsonFails` proves `{}`, `[]`, 0, false and null are falsy |
| `PyValues.Truncate` | lambda_function.py:39 | `int()` of a float truncates toward zero |
| `PyValues.IntOf` | lambda_function.py:39 | `int(v)` keeps integers. For a string it succeeds exactly when the text is an integer literal and otherwise raises ValueError. None, lists and dicts raise TypeError |
| `Storage.GetObject` | lambda_function.py:50 | Reading succeeds exactly for string parameters naming a stored object. NoSuchKey is raised exactly when the bucket exists without the key, and it names the key; any other failure is parameter validation or a missing bucket |
| `Segmentation.Segment` | lambda_function.py:51-66 | The step passes exactly when the object decodes and `KMeans` passes, that is 1 <= k <= 65536. An object that does not decode raises UnidentifiedImageError (the key stands in for PIL's message), before k is looked at; a decodable image with a bad k raises ValueError |
| `Segmentation.KMeans` | lambda_function.py:18-23 | In the model, k-means on the 65536 resized pixels passes exactly for 1 <= k <= 65536, and any other k raises ValueError (too many or negative centroids to sample, or none to take an `argmin` over). Running out of memory for large k is not modelled |
| `SegmentHandler.Handle` | lambda_function.py:36-117 | Every answer is 200, 400 or 404. A 200 names a stored input key that decodes as an image, a cluster count in [1, 65536] and the configured output bucket, and its output key is derived from that input key and the clusters used |
| `SegmentHandler.RawBody` | lambda_function.py:37 | `event.get('body', '{}')`; its partner `SegmentHandler.MissingBodyIsBadRequest` proves an event without a body is answered 400 |
| `SegmentHandler.OutKey` | lambda_function.py:81-82 | The output key starts with "segmented/" and ends in ".png"; its partner `SegmentHandler.OutKeyRoundTrip` proves it reads back to the stem and k |
| `SegmentHandler.BadRequestCases` | lambda_function.py:36-45 | 400 exactly when the body text is not JSON, or is a JSON object without `image_key`; that answer carries the fixed message and does not depend on the store or its images |
| `SegmentHandler.MissingBodyIsBadRequest` | lambda_function.py:37 | An event without a body reads as "{}" and gets 400 |
| `SegmentHandler.WellFormedRequest` | lambda_function.py:49-66 | For a well-formed request, a stored image with 1 <= k <= 65536 gives 200 with the output key and k (memory limits of k-means not modelled). A bucket without the key gives 404 "Image key not found: <key>". A missing input bucket raises NoSuchBucket. A stored object that is not an image raises UnidentifiedImageError. A stored image with any other k raises the ValueError of k-means |
| `SegmentHandler.AnsweredRequestIsWellFormed` | lambda_function.py:36-66 | Any answer other than 400 comes from a well-formed request, and in the model it is 200 exactly when the object is stored, decodes as an image, and k is in [1, 65536] (memory limits of k-means not modelled) |
| `SegmentHandler.DefaultClusterCount` | lambda_function.py:39 | Without `k_clusters`, a stored object that decodes as an image is segmented with 4 clusters |
| `SegmentHandler.BadClusterCountRaises` | lambda_function.py:39-40 | A `k_clusters` that `int()` rejects raises ValueError or TypeError; it is never answered with 400 |
| `SegmentHandler.OutKeyRoundTrip` | lambda_function.py:81-82 | "segmented/<name>_K<k>.png" reads back as the file name without directory and final extension, and k |
| `SegmentHandler.OutKeyInjective` | lambda_function.py:81-82 | Different stems or cluster counts give different output keys |
| `SegmentHandler.OutKeyIgnoresDirectory` | lambda_function.py:81 | The same file name in two directories gets the same output key |
| `SegmentTrigger.Configure` | lamda.py:11-12 | Configuration succeeds exactly when NUM_CLUSTERS is unset or an integer literal and OUTPUT_BUCKET is set; a bad NUM_CLUSTERS raises ValueError |
| `SegmentTrigger.ConfiguredClusters` | lamda.py:11 | An unset NUM_CLUSTERS gives 4; a printed integer gives back exactly that integer |
| `SegmentTrigger.ClusterCountCheckedFirst` | lamda.py:11-12 | A bad NUM_CLUSTERS is reported as ValueError even when OUTPUT_BUCKET is also unset |
| `SegmentTrigger.Dig` | lamda.py:34-35 | Chained dict lookups fail only with KeyError or TypeError |
| `SegmentTrigger.RecordField` | lamda.py:34-35 | `event['Records'][0][...]` fails only with KeyError, TypeError or IndexError |
| `SegmentTrigger.DigNest` | lamda.py:34-35 | Looking up a nested record along its own path finds the leaf |
| `SegmentTrigger.RecordNames` | lamda.py:34-35 | The bucket and key paths of a notification record lead to its bucket name and object key |
| `SegmentTrigger.Handle` | lamda.py:32-80 | Every answer is 200. It echoes the first record's bucket and key, which name a stored object that decodes as an image, with the configured output bucket and the output key for that key and K; K is then in [1, 65536] |
| `SegmentTrigger.TriggerOutKey` | lamda.py:63-64 | The output key starts with "<stem>_segmented_K" and ends in ".png"; its partner `SegmentTrigger.TriggerOutKeyRoundTrip` proves it reads back to the stem and K |
| `SegmentTrigger.NotificationHandled` | lamda.py:34-80 | A notification whose first record names a stored image gets 200 with the expected body, whatever records follow, when K is in [1, 65536] (memory limits of k-means not modelled) |
| `SegmentTrigger.FailuresEscape` | lamda.py:34-39 | No records raises IndexError; a missing object raises NoSuchKey; a stored object that is not an image raises UnidentifiedImageError; nothing is caught |
| `SegmentTrigger.UnusableClusterCountRaises` | lamda.py:49 | NUM_CLUSTERS holding any integer outside [1, 65536] (0, say) configures fine, and then every notification about a stored image raises the ValueError of k-means |
| `SegmentTrigger.TriggerOutKeyRoundTrip` | lamda.py:63-64 | "<name>_segmented_K<K>.png" reads back as the file name without directory and final extension, and K |
| `SegmentTrigger.TriggerOutKeyInjective` | lamda.py:63-64 | Different stems or cluster counts give different output keys |
| `PyText.StemExample` | lamda.py:63 | Only the directory and the final extension are removed: "dir/a.b.jpg" gives "a.b" |
| `PyText.Basename` | lamda.py:63 | The base name is a suffix of the path and holds no '/' |
| `PyText.BasenameIsLastComponent` | lamda.py:63 | The base name is the whole path, or what follows its last '/' |
| `PyText.BasenameOfJoined` | lambda_function.py:81 | The base name of "<dir>/<name>" is the name |
| `PyText.SplitExt` | lamda.py:63 | `os.path.splitext`; its partners `PyText.SplitExtJoins`, `PyText.SplitExtIsFinalExtension` and `PyText.SplitExtOfAppended` prove the parts join back and the extension is the final one |
| `PyText.SplitExtJoins` | lamda.py:63 | Root and extension put together give the path back |
| `PyText.SplitExtIsFinalExtension` | lamda.py:63 | The extension is empty, or one leading '.' followed by no other '.' and no '/' |
| `PyText.SplitExtOfAppended` | lamda.py:63 | "<root>.<ext>" splits exactly before the final '.' |
| `PyText.SplitExtLower` | s3-uploader/uploader.py:47 | Splitting commutes with lower-casing |
| `PyText.IntToString` | lambda_function.py:82 | `str(k)` is never empty and starts with '-' exactly for negative k |
| `PyText.ParseInt` | lamda.py:11 | `int(str)` on ASCII text; its partner `PyText.IntStringRoundTrip` proves it reads back every printed integer |
| `PyText.IntStringRoundTrip` | lamda.py:11 | `int(str(k)) == k` for every integer |
| `PyText.IntToStringInjective` | lambda_function.py:82 | Different cluster counts print differently |
| `KeyNames.SplitKRoundTrip` | lambda_function.py:82 | "<text>_K<k>" splits back into the text and k |
| `Uploader.ContentType` | s3-uploader/uploader.py:47-53 | The content type is always image/png, image/jpeg or application/octet-stream |
| `Uploader.ContentTypeCases` | s3-uploader/uploader.py:47-53 | image/png exactly for ".png", image/jpeg exactly for ".jpg" and ".jpeg" (compared in lower case), and application/octet-stream for any other extension, including none |
| `Uploader.ContentTypeIgnoresCase` | s3-uploader/uploader.py:47 | Lower-casing the file name does not change its content type |
| `Uploader.ContentTypeByFinalExtension` | s3-uploader/uploader.py:47 | Only the final extension decides: names ending in the same extension get the same type |
| `Uploader.UpperCaseExtension` | s3-uploader/uploader.py:47-49 | "X.PNG" is image/png |
| `Uploader.DoubleExtension` | s3-uploader/uploader.py:47-51 | "a.png.jpg" is image/jpeg |
| `Uploader.HiddenFileHasNoExtension` | s3-uploader/uploader.py:47-53 | ".png" has no extension and is sent as application/octet-stream |
| `Uploader.ObjectUrl` | s3-uploader/uploader.py:27 | The address starts with "https://" and ends with the file name |
| `Uploader.ObjectUrlShape` | s3-uploader/uploader.py:27 | The address starts with "https://" and its last path component is the file name |
| `Uploader.UnsetSettingsShowNone` | s3-uploader/uploader.py:27 | An unset bucket prints as "None": the address starts with "https://None.s3." |

## Left out

- Network I/O, concurrency and time are not modelled. This covers the aiohttp session and `asyncio.gather` in `tests/test.py`, the request sending, the Locust framework, the storage transfers, the pixel values of decoding and k-means, PNG encoding, timings and logging. Whether an object decodes, and which cluster counts k-means runs with, are modelled; the pixels, centroids and encoded bytes are not.
- The `ClientSession` used without `()` at `tests/test.py:32` is not modelled. The session is outside the model.
- The result handling at `tests/test.py:44-51` is not modelled, because it indexes response strings as dicts. The `if tasks:` test at line 43 is modelled.
- The uploader's directory walk and the upload itself (`s3-uploader/uploader.py:19-26`, `35-45`, `55-59`) are not modelled. Only the content type and the address are.
- LoadTest.Test.FillBatch: requires non-negative counts that sum to more than zero, and enough draws. The setters refuse negative counts, so a test from the corrected build has none (the build as written produces no test at all); with negative counts the source's loop may never end, which the model does not follow.
- LoadTest.Test.RunTests: requires non-negative counts and at least as many draws as requests, for the same reason. When min_k <= max_k it requires every draw to lie in its `randint` range; when min_k > max_k no such draw exists, and the model gives the source's ValueError instead.
- LoadTest.Run: requires non-negative counts and enough draws, for the same reason.
- LoadTest.Test.FirstAvailableIndex: requires some count to be non-zero. The source loops forever otherwise.
- The Locust probabilities are exact reals. Floating-point rounding of the running sums is not modelled.
- PyText.ParseInt: covers only ASCII. Unicode digits and the `_` separators that `int()` accepts are not modelled.
- PyText.Lower: covers only ASCII letters; non-ASCII case mapping is not modelled.
- PyValues.IntOf: does not model `int()` of infinite or NaN floats, because JSON values here are exact reals.
- `isinstance` checks in the builder are not modelled. The parameters are typed, so they always pass.
- Error messages that embed Python's `repr` of a value are shortened to the message's fixed text.
- Storage.GetObject: does not model other storage failures: bucket-name syntax, permissions and throttling. For a missing input bucket it raises NoSuchBucket, which the HTTP handler does not catch.
- The 200 answer of `lambda_function.py` is modelled without its `processing_time_ms` field, a wall-clock value. Response bodies are modelled as values, not serialized JSON text.
- Segmentation.KMeans: memory exhaustion is not modelled. The distance step broadcasts a 65536 x k x 3 float32 array, 0.75 MiB per cluster, so a large k well below 65536 ends in MemoryError or a killed function rather than a 200; the model passes every k in [1, 65536]. A cluster count beyond 64-bit range may raise OverflowError inside numpy rather than ValueError; the model reports ValueError for every count above 65536.
- Segmentation.Segment: PIL's error for an object that does not decode names the stream it was given, not the key; the model puts the key in the error in its place. The exception messages are numpy's, which lie outside this repository.
- `tests/main.py` is not part of this model. It only chains the builder once.

## Findings

| source | as written | input that shows it | evidently intended | confidence | as-written member | corrected member |
|---|---|---|---|---|---|---|
| tests/testBuilder.py:60 | `build` passes the keyword `concurrent=`, but `Test.__init__` (tests/test.py:8) names its parameter `conccurent`, so the call raises TypeError | any builder with a URL set, such as the chain in tests/main.py | pass `conccurent=`, so that `build` returns the configured `Test` | not executed | `LoadTestBuilder.TestBuilder.Build` | `LoadTestBuilder.TestBuilder.BuildCorrected` |
