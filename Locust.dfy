/**
 * The Locust user of the load tests: each task picks an image category by a
 * cumulative-probability scan of a uniform draw, asks for a random image of
 * that category with a random cluster count, and classifies the response as
 * a success or one of three kinds of failure.
 */
module Locust {
  import opened Wrappers
  import opened Categories
  import opened PyText
  import opened PyValues

  /** The category probabilities small, medium, large, as exact reals. */
  const Probabilities: seq<real> := [0.3, 0.5, 0.2]
  const KMin: int := 2
  const KMax: int := 8

  /** The running sum after adding the first `i` probabilities. */
  function Cumulative(i: nat): real
    requires i <= |Probabilities|
  {
    if i == 0 then 0.0 else Cumulative(i - 1) + Probabilities[i - 1]
  }

  /** The running sum once probability `i` is added. */
  function SumThrough(i: nat): real
    requires i < |Probabilities|
  {
    Cumulative(i + 1)
  }

  /** The first category from `i` on whose running sum reaches `r`, if any. */
  function FirstReach(r: real, i: nat): (j: Option<nat>)
    requires i <= |Probabilities|
    ensures j.Some? ==> i <= j.value < |Probabilities| && SumThrough(j.value) >= r
    ensures j.Some? ==> forall m :: i <= m < j.value ==> SumThrough(m) < r
    ensures j.None? ==> forall m :: i <= m < |Probabilities| ==> SumThrough(m) < r
    decreases |Probabilities| - i
  {
    if i == |Probabilities| then None
    else if SumThrough(i) >= r then Some(i)
    else FirstReach(r, i + 1)
  }

  /** The category the scan settles on: the first whose running sum reaches `r`, or "large" when none does. */
  function CategoryFor(r: real): (i: nat)
    ensures i < Count
  {
    match FirstReach(r, 0)
    case Some(j) => j
    case None => 2
  }

  /** The image name a task asks for: "<category>_<n>.jpg". */
  function LocustImageName(category: nat, n: int): string
    requires category < Count
  {
    Name(category) + "_" + IntToString(n) + ".jpg"
  }

  /**
   * The category pick of a task: add the probabilities one by one and stop at
   * the first running sum that reaches the draw `r`; when none does, fall
   * back to "large". `n` is the image number drawn for the name.
   */
  method ChooseImage(r: real, n: int) returns (imageName: string)
    ensures imageName == LocustImageName(CategoryFor(r), n)
  {
    var s: real := 0.0;
    imageName := "";
    var i := 0;
    while i < |Probabilities|
      invariant 0 <= i <= |Probabilities|
      invariant s == Cumulative(i)
      invariant FirstReach(r, 0) == FirstReach(r, i)
      invariant imageName == ""
    {
      s := s + Probabilities[i];
      if s >= r {
        imageName := Name(i) + "_" + IntToString(n) + ".jpg";
        break;
      }
      i := i + 1;
    }
    if imageName == "" {
      imageName := Name(2) + "_" + IntToString(n) + ".jpg";
    }
  }

  /** The JSON body of a request. */
  datatype RequestBody = RequestBody(imageKey: string, kClusters: int)

  /** The request a task sends for the draws `r` (category), `n` (image number) and `k` (cluster count). */
  method Request(r: real, n: int, k: int) returns (body: RequestBody)
    requires 1 <= n <= 200 && KMin <= k <= KMax
    ensures body == RequestBody(LocustImageName(CategoryFor(r), n), k)
  {
    var imageName := ChooseImage(r, n);
    body := RequestBody(imageName, k);
  }

  /** How a Locust task reports a response. */
  datatype Verdict =
    | Succeeded
    | EmptyOrUnexpected  // status 200 and JSON, but a falsy value
    | NotJson            // status 200, but the body does not parse
    | BadStatus(status: int)

  /**
   * The classification: 200 with a truthy JSON value succeeds; 200 with a
   * falsy JSON value, 200 with a body that is not JSON, and any other status
   * fail. `parsed` is what `response.json()` gives, None when it raises.
   */
  function Classify(status: int, parsed: Option<JsonValue>): (v: Verdict)
  {
    if status == 200 then
      match parsed
      case Some(data) => if Truthy(data) then Succeeded else EmptyOrUnexpected
      case None => NotJson
    else BadStatus(status)
  }

  // ---------------------------------------------------------------------------
  // Properties

  /** The running sums are 0.3, 0.8 and 1.0. */
  lemma CumulativeValues()
    ensures Cumulative(1) == 0.3 && Cumulative(2) == 0.8 && Cumulative(3) == 1.0
  {
  }

  /** The category bands: up to 0.3 is small, up to 0.8 medium, above that large. */
  lemma CategoryBands(r: real)
    ensures r <= 0.3 ==> CategoryFor(r) == 0
    ensures 0.3 < r <= 0.8 ==> CategoryFor(r) == 1
    ensures 0.8 < r ==> CategoryFor(r) == 2
  {
    CumulativeValues();
  }

  /**
   * The pick is the first category whose running sum reaches `r`; only when
   * none does (r above 1) is it the fallback "large".
   */
  lemma CategoryIsFirstReach(r: real)
    ensures var i := CategoryFor(r);
      (forall m :: 0 <= m < i ==> SumThrough(m) < r) &&
      (SumThrough(i) >= r || (i == 2 && forall m :: 0 <= m < Count ==> SumThrough(m) < r))
  {
  }

  /**
   * The image name a request asks for reads back: it starts with the chosen
   * category's name and '_', ends in ".jpg", and what lies between parses
   * as the drawn number.
   */
  lemma ImageNameReadsBack(r: real, n: int)
    ensures var key := LocustImageName(CategoryFor(r), n);
      var head := Name(CategoryFor(r)) + "_";
      StartsWith(key, head) && EndsWith(key, ".jpg") && ParseInt(key[|head|..|key| - 4]) == Some(n)
  {
    Affixes(Name(CategoryFor(r)) + "_", IntToString(n), ".jpg");
    IntStringRoundTrip(n);
  }

  /** The four verdicts are exclusive and cover every response, each exactly on its condition. */
  lemma ClassifyCases(status: int, parsed: Option<JsonValue>)
    ensures Classify(status, parsed) == Succeeded <==> status == 200 && parsed.Some? && Truthy(parsed.value)
    ensures Classify(status, parsed) == EmptyOrUnexpected <==> status == 200 && parsed.Some? && !Truthy(parsed.value)
    ensures Classify(status, parsed) == NotJson <==> status == 200 && parsed.None?
    ensures Classify(status, parsed) == BadStatus(status) <==> status != 200
  {
  }

  /** An empty JSON object, an empty list, 0, false and null are all reported as failures even with status 200. */
  lemma FalsyJsonFails()
    ensures Classify(200, Some(JObject(map[]))) == EmptyOrUnexpected
    ensures Classify(200, Some(JArray([]))) == EmptyOrUnexpected
    ensures Classify(200, Some(JInt(0))) == EmptyOrUnexpected
    ensures Classify(200, Some(JBool(false))) == EmptyOrUnexpected
    ensures Classify(200, Some(JNull)) == EmptyOrUnexpected
  {
  }
}
