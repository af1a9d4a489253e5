/**
 * The fluent builder of load tests: each setter checks its own arguments and
 * either raises ValueError, leaving the builder as it was, or updates its
 * fields and returns the builder for chaining. `Build` checks that a URL was
 * set, turns an all-zero quota into one small request, and constructs the test.
 */
module LoadTestBuilder {
  import opened Wrappers
  import opened PyText
  import opened PyValues
  import opened LoadTest

  const CountsMessage := "Counts must be non-negative integers."
  const KRangeMessage := "k_min and k_max must be positive integers, and k_min <= k_max."
  const ConcurrencyMessage := "Concurrent requests must be a positive integer."
  const UrlMessage := "URL must be a valid http(s) string."
  const MissingUrlMessage := "URL must be set before building the Test object."

  /** The keyword arguments `build` passes to the `Test` initializer, in order. */
  const BuildKeywords: seq<string> := ["small", "medium", "large", "k_min", "k_max", "concurrent", "url"]

  /**
   * Python's binding of keyword arguments: the first keyword that names no
   * parameter, which makes the call raise TypeError; None when all bind.
   */
  function FirstUnexpected(parameters: seq<string>, keywords: seq<string>): (r: Option<string>)
    ensures r.None? <==> forall k :: k in keywords ==> k in parameters
    ensures r.Some? ==> r.value in keywords && r.value !in parameters
  {
    if keywords == [] then None
    else if keywords[0] !in parameters then Some(keywords[0])
    else FirstUnexpected(parameters, keywords[1..])
  }

  /** The message of the TypeError a call raises for keyword `k` that names no parameter of `Test.__init__`. */
  function UnexpectedKeyword(k: string): string
  {
    "Test.__init__() got an unexpected keyword argument '" + k + "'"
  }

  /** The URL check of `with_url`: a prefix test only. */
  predicate UrlAccepted(url: string)
  {
    StartsWith(url, "http")
  }

  class TestBuilder {
    var small: int
    var medium: int
    var large: int
    var kMin: int
    var kMax: int
    var concurrent: int
    var url: Option<string>

    /** What the setters guarantee about the fields, whatever order they are called in. */
    predicate Valid()
      reads this
    {
      small >= 0 && medium >= 0 && large >= 0 && 0 < kMin <= kMax && concurrent > 0
      && (url.Some? ==> UrlAccepted(url.value))
    }

    /** A fresh builder: no requests, k in [1, 10], one request at a time, no URL. */
    constructor ()
      ensures small == 0 && medium == 0 && large == 0
      ensures kMin == 1 && kMax == 10 && concurrent == 1 && url == None
      ensures Valid()
    {
      small := 0;
      medium := 0;
      large := 0;
      kMin := 1;
      kMax := 10;
      concurrent := 1;
      url := None;
    }

    /** `with_counts`: all three counts must be non-negative; they are set together or not at all. */
    method WithCounts(small: int, medium: int, large: int) returns (r: Outcome<PyError>)
      modifies this
      ensures r.Pass? <==> small >= 0 && medium >= 0 && large >= 0
      ensures r.Fail? ==> r.error == ValueError(CountsMessage) && unchanged(this)
      ensures r.Pass? ==>
        this.small == small && this.medium == medium && this.large == large
        && kMin == old(kMin) && kMax == old(kMax) && concurrent == old(concurrent) && url == old(url)
      ensures old(Valid()) ==> Valid()
    {
      if !(small >= 0 && medium >= 0 && large >= 0) {
        return Fail(ValueError(CountsMessage));
      }
      this.small := small;
      this.medium := medium;
      this.large := large;
      r := Pass;
    }

    /** `with_k_range`: succeeds exactly when 0 < kMin <= kMax. */
    method WithKRange(kMin: int, kMax: int) returns (r: Outcome<PyError>)
      modifies this
      ensures r.Pass? <==> 0 < kMin <= kMax
      ensures r.Fail? ==> r.error == ValueError(KRangeMessage) && unchanged(this)
      ensures r.Pass? ==>
        this.kMin == kMin && this.kMax == kMax
        && small == old(small) && medium == old(medium) && large == old(large)
        && concurrent == old(concurrent) && url == old(url)
      ensures old(Valid()) ==> Valid()
    {
      if !(0 < kMin <= kMax) {
        return Fail(ValueError(KRangeMessage));
      }
      this.kMin := kMin;
      this.kMax := kMax;
      r := Pass;
    }

    /** `with_concurrent_requests`: succeeds exactly when the number is positive. */
    method WithConcurrentRequests(concurrent: int) returns (r: Outcome<PyError>)
      modifies this
      ensures r.Pass? <==> concurrent > 0
      ensures r.Fail? ==> r.error == ValueError(ConcurrencyMessage) && unchanged(this)
      ensures r.Pass? ==>
        this.concurrent == concurrent
        && small == old(small) && medium == old(medium) && large == old(large)
        && kMin == old(kMin) && kMax == old(kMax) && url == old(url)
      ensures old(Valid()) ==> Valid()
    {
      if !(concurrent > 0) {
        return Fail(ValueError(ConcurrencyMessage));
      }
      this.concurrent := concurrent;
      r := Pass;
    }

    /** `with_url`: succeeds exactly when the string starts with "http". */
    method WithUrl(url: string) returns (r: Outcome<PyError>)
      modifies this
      ensures r.Pass? <==> UrlAccepted(url)
      ensures r.Fail? ==> r.error == ValueError(UrlMessage) && unchanged(this)
      ensures r.Pass? ==>
        this.url == Some(url)
        && small == old(small) && medium == old(medium) && large == old(large)
        && kMin == old(kMin) && kMax == old(kMax) && concurrent == old(concurrent)
      ensures old(Valid()) ==> Valid()
    {
      if !UrlAccepted(url) {
        return Fail(ValueError(UrlMessage));
      }
      this.url := Some(url);
      r := Pass;
    }

    /**
     * The check and coercion `build` does before constructing the test: no URL
     * raises ValueError and changes nothing; all-zero counts become one small
     * request, in the builder's own field; any other counts stay as they are.
     */
    method Prepare() returns (r: Outcome<PyError>)
      modifies this`small
      ensures r.Pass? <==> url.Some?
      ensures r.Fail? ==> r.error == ValueError(MissingUrlMessage) && small == old(small)
      ensures r.Pass? ==>
        small == (if old(small) == 0 && medium == 0 && large == 0 then 1 else old(small))
    {
      if url.None? {
        return Fail(ValueError(MissingUrlMessage));
      }
      if small == 0 && medium == 0 && large == 0 {
        small := 1;
      }
      r := Pass;
    }

    /**
     * `build` as written: after the check and coercion it calls the `Test`
     * initializer with the keyword `concurrent`, which names no parameter of
     * the initializer, so the call raises TypeError and no test is built.
     */
    method Build() returns (r: Result<Test, PyError>)
      modifies this`small
      ensures url.None? ==> r == Failure(ValueError(MissingUrlMessage)) && small == old(small)
      ensures url.Some? ==>
        r == Failure(TypeError(UnexpectedKeyword("concurrent")))
        && small == (if old(small) == 0 && medium == 0 && large == 0 then 1 else old(small))
    {
      var prepared := Prepare();
      if prepared.Fail? {
        return Failure(prepared.error);
      }
      BuildKeywordsRejected();
      var unexpected := FirstUnexpected(InitParameters, BuildKeywords);
      r := Failure(TypeError(UnexpectedKeyword(unexpected.value)));
    }

    /**
     * `build` with the keyword the initializer expects: the test gets the
     * builder's settings, and from a valid builder it has a non-empty,
     * non-negative quota, a k-range and a positive concurrency.
     */
    method BuildCorrected() returns (r: Result<Test, PyError>)
      modifies this`small
      ensures url.None? <==> r.Failure?
      ensures r.Failure? ==> r.error == ValueError(MissingUrlMessage) && small == old(small)
      ensures r.Success? ==>
        small == (if old(small) == 0 && medium == 0 && large == 0 then 1 else old(small))
        && fresh(r.value)
        && r.value.counter == [small, medium, large]
        && r.value.minK == kMin && r.value.maxK == kMax
        && r.value.concurrency == concurrent && Some(r.value.url) == url
      ensures r.Success? && old(Valid()) ==>
        Valid() && NonNegative(r.value.counter) && Sum(r.value.counter) > 0
        && 0 < r.value.minK <= r.value.maxK && r.value.concurrency >= 1
    {
      var prepared := Prepare();
      if prepared.Fail? {
        return Failure(prepared.error);
      }
      var test := new Test(small, medium, large, kMin, kMax, concurrent, url.value);
      r := Success(test);
    }
  }

  /** The keywords `build` passes with `concurrent` corrected to the initializer's `conccurent`. */
  const CorrectedKeywords: seq<string> := ["small", "medium", "large", "k_min", "k_max", "conccurent", "url"]

  /** The keyword `concurrent` names no parameter of `Test.__init__`, so binding fails on it. */
  lemma BuildKeywordsRejected()
    ensures FirstUnexpected(InitParameters, BuildKeywords) == Some("concurrent")
  {
    assert BuildKeywords[..5] + ["concurrent"] + ["url"] == BuildKeywords;
    assert forall i :: 0 <= i < 5 ==> BuildKeywords[i] in InitParameters;
    assert BuildKeywords[5..] == ["concurrent", "url"];
    assert "concurrent" !in InitParameters;
    FirstUnexpectedSkips(InitParameters, BuildKeywords, 5);
  }

  /** Every corrected keyword names a parameter, and each parameter is named exactly once. */
  lemma CorrectedKeywordsBind()
    ensures FirstUnexpected(InitParameters, CorrectedKeywords) == None
    ensures CorrectedKeywords == InitParameters
  {
  }

  /** Keywords that all bind can be skipped: binding fails at the first one that does not. */
  lemma {:induction false} FirstUnexpectedSkips(parameters: seq<string>, keywords: seq<string>, n: nat)
    requires n <= |keywords|
    requires forall i :: 0 <= i < n ==> keywords[i] in parameters
    ensures FirstUnexpected(parameters, keywords) == FirstUnexpected(parameters, keywords[n..])
  {
    if n > 0 {
      assert keywords[0] in parameters;
      FirstUnexpectedSkips(parameters, keywords[1..], n - 1);
      assert keywords[1..][n - 1..] == keywords[n..];
    }
  }

  /** The URL check is a prefix test only: "httpx" and "http-not-a-url" pass, "ftp://" and "HTTP://" do not. */
  lemma UrlCheckIsPrefixOnly()
    ensures UrlAccepted("httpx") && UrlAccepted("http-not-a-url")
    ensures !UrlAccepted("ftp://host") && !UrlAccepted("HTTP://host") && !UrlAccepted("htt")
  {
    assert "httpx"[..4] == "http";
    assert "http-not-a-url"[..4] == "http";
    assert "ftp://host"[..4][0] != "http"[0];
    assert "HTTP://host"[..4][0] != "http"[0];
  }
}
