/** The statistics collected by the API load test: the accumulator of response times, status
    codes and error messages, the summary it reports, the percentile it uses and the way a
    request's outcome is recorded. The test client and the clock are parameters. */
module LoadTest {
  import opened Wrappers
  import Text

  // ---------------------------------------------------------------------------
  // Sorting and order statistics

  predicate SortedReals(s: seq<real>) {
    forall i, j :: 0 <= i < j < |s| ==> s[i] <= s[j]
  }

  function InsertSorted(x: real, s: seq<real>): (r: seq<real>)
    requires SortedReals(s)
    ensures SortedReals(r) && multiset(r) == multiset(s) + multiset{x} && |r| == |s| + 1
    ensures r[0] == x || (s != [] && r[0] == s[0])
  {
    if s == [] || x <= s[0] then [x] + s
    else
      var rest := InsertSorted(x, s[1..]);
      assert s == [s[0]] + s[1..];
      [s[0]] + rest
  }

  /** `sorted(data)`: ascending, with the same elements. */
  function Sort(s: seq<real>): (r: seq<real>)
    ensures SortedReals(r) && multiset(r) == multiset(s) && |r| == |s|
  {
    if s == [] then []
    else
      var r := InsertSorted(s[|s| - 1], Sort(s[..|s| - 1]));
      assert s == s[..|s| - 1] + [s[|s| - 1]];
      r
  }

  /** Python's `seq[i]`, counting from the end for a negative index; `None` is the `IndexError`. */
  function PyIndex(s: seq<real>, i: int): (r: Option<real>)
    ensures r.Some? <==> -|s| <= i < |s|
    ensures 0 <= i < |s| ==> r == Some(s[i])
    ensures -|s| <= i < 0 ==> r == Some(s[|s| + i])
  {
    if 0 <= i < |s| then Some(s[i])
    else if -|s| <= i < 0 then Some(s[|s| + i])
    else None
  }

  function MinInt(a: int, b: int): int {
    if a <= b then a else b
  }

  /** `min(int(n * p), n - 1)`: the index `_percentile` reads. */
  function PercentileIndex(n: nat, p: real): (i: int)
    ensures i <= n - 1
    ensures n > 0 && p >= 0.0 ==> 0 <= i
  {
    var x := n as real * p;
    assert n > 0 && p >= 0.0 ==> x >= 0.0 by {
      if n > 0 && p >= 0.0 { ProductNonNegative(n as real, p); }
    }
    MinInt(Text.Trunc(x), n - 1)
  }

  lemma ProductNonNegative(a: real, b: real)
    requires a >= 0.0 && b >= 0.0
    ensures a * b >= 0.0
  {
  }

  /** A higher fraction never selects a lower index. */
  lemma PercentileIndexMonotone(n: nat, p: real, q: real)
    requires 0.0 <= p <= q
    ensures PercentileIndex(n, p) <= PercentileIndex(n, q)
  {
    var a := n as real;
    ProductNonNegative(a, p);
    ProductNonNegative(a, q - p);
    assert a * q == a * p + a * (q - p);
    assert (a * p).Floor <= (a * q).Floor;
  }

  /** `_percentile(data, p)`: `sorted(data)[min(int(n * p), n - 1)]`. */
  function Percentile(data: seq<real>, p: real): (r: Option<real>)
    ensures r.Some? ==> r.value in multiset(data)
    ensures data != [] && p >= 0.0 ==> r == Some(Sort(data)[PercentileIndex(|data|, p)])
    ensures data == [] ==> r.None?
  {
    var sorted := Sort(data);
    var i := PercentileIndex(|data|, p);
    var r := PyIndex(sorted, i);
    assert r.Some? ==> r.value in multiset(sorted) by {
      if r.Some? {
        if 0 <= i { assert r.value == sorted[i]; } else { assert r.value == sorted[|sorted| + i]; }
      }
    }
    r
  }

  /** A higher percentile never reports a smaller time. */
  lemma PercentileMonotone(data: seq<real>, p: real, q: real)
    requires data != [] && 0.0 <= p <= q
    ensures Percentile(data, p).Some? && Percentile(data, q).Some?
    ensures Percentile(data, p).value <= Percentile(data, q).value
  {
    PercentileIndexMonotone(|data|, p, q);
    var sorted := Sort(data);
    var i, j := PercentileIndex(|data|, p), PercentileIndex(|data|, q);
    assert Percentile(data, p) == Some(sorted[i]);
    assert Percentile(data, q) == Some(sorted[j]);
    assert i == j || sorted[i] <= sorted[j];
  }

  // ---------------------------------------------------------------------------
  // Summaries

  function Sum(s: seq<real>): real {
    if s == [] then 0.0 else Sum(s[..|s| - 1]) + s[|s| - 1]
  }

  /** The number of codes in [200, 300). */
  function CountSuccessful(codes: seq<int>): (c: nat)
    ensures c <= |codes|
    ensures codes == [] ==> c == 0
  {
    if codes == [] then 0
    else CountSuccessful(codes[..|codes| - 1]) + (if 200 <= codes[|codes| - 1] < 300 then 1 else 0)
  }

  lemma {:induction false} CountSuccessfulAppend(codes: seq<int>, code: int)
    ensures CountSuccessful(codes + [code]) == CountSuccessful(codes) + (if 200 <= code < 300 then 1 else 0)
  {
    assert (codes + [code])[..|codes|] == codes;
  }

  /** `statistics.median`: the middle element, or the mean of the two middle ones. */
  function Median(data: seq<real>): (m: real)
    requires data != []
  {
    var s := Sort(data);
    var n := |s|;
    if n % 2 == 1 then s[n / 2] else (s[n / 2 - 1] + s[n / 2]) / 2.0
  }

  /** The figures `get_stats` adds when there are results. */
  datatype Timing = Timing(
    average: real, minimum: real, maximum: real, median: real,
    p95: real, p99: real, requestsPerSecond: real)

  datatype Stats = Stats(
    endpoint: string,
    totalRequests: nat,
    successfulRequests: nat,
    failedRequests: int,
    errorRate: real,
    timing: Option<Timing>,
    errors: seq<string>)

  const ShownErrors := 10

  function TakeErrors(errors: seq<string>): (r: seq<string>)
    ensures |r| <= ShownErrors && |r| <= |errors| && r == errors[..|r|]
    ensures |errors| <= ShownErrors ==> r == errors
  {
    if |errors| <= ShownErrors then errors else errors[..ShownErrors]
  }

  /** `failed / total * 100`. */
  function ErrorRate(failed: int, total: nat): (rate: real)
    requires 0 <= failed <= total && total > 0
    ensures 0.0 <= rate <= 100.0
    ensures rate * (total as real) == (failed as real) * 100.0
    ensures failed == 0 <==> rate == 0.0
    ensures failed == total <==> rate == 100.0
  {
    var f := failed as real / total as real;
    assert 0.0 <= f <= 1.0;
    f * 100.0
  }

  /** The timing figures of a non-empty list of response times with a non-zero sum. */
  function TimingOf(times: seq<real>): (t: Timing)
    requires times != [] && Sum(times) != 0.0
    ensures t.p95 <= t.p99
    ensures t.p95 in multiset(times) && t.p99 in multiset(times)
    ensures t.minimum in multiset(times) && t.maximum in multiset(times)
    ensures forall i :: 0 <= i < |times| ==> t.minimum <= times[i] <= t.maximum
    ensures t.p95 == Percentile(times, 0.95).value && t.p99 == Percentile(times, 0.99).value
    ensures t.requestsPerSecond == |times| as real / Sum(times)
  {
    var sorted := Sort(times);
    var n := |times|;
    PercentileMonotone(times, 0.95, 0.99);
    assert sorted[0] in multiset(sorted) && sorted[n - 1] in multiset(sorted);
    SortedBetweenEnds(times, sorted);
    Timing(Sum(times) / n as real, sorted[0], sorted[n - 1], Median(times),
           Percentile(times, 0.95).value, Percentile(times, 0.99).value, n as real / Sum(times))
  }

  /** Every element of a list lies between the ends of its sorted copy. */
  lemma SortedBetweenEnds(times: seq<real>, sorted: seq<real>)
    requires sorted == Sort(times) && times != []
    ensures forall i :: 0 <= i < |times| ==> sorted[0] <= times[i] <= sorted[|sorted| - 1]
  {
    forall i | 0 <= i < |times| ensures sorted[0] <= times[i] <= sorted[|sorted| - 1] {
      assert times[i] in multiset(times);
      assert times[i] in multiset(sorted);
      var j :| 0 <= j < |sorted| && sorted[j] == times[i];
    }
  }

  const ZeroDivisionText := "float division by zero"

  /** The result of one request as `_make_request` reports it. */
  datatype RequestOutcome = Responded(code: int) | Raised(message: string)

  /** The accumulator of one endpoint's results. */
  class LoadTestResult {
    const endpointName: string
    var responseTimes: seq<real>
    var statusCodes: seq<int>
    var errors: seq<string>

    /** Every result has a time and a code. */
    ghost predicate Valid()
      reads this
    {
      |responseTimes| == |statusCodes|
    }

    constructor(name: string)
      ensures Valid() && endpointName == name && responseTimes == [] && statusCodes == [] && errors == []
    {
      endpointName := name;
      responseTimes := [];
      statusCodes := [];
      errors := [];
    }

    /** `add_result`: one time, one code, and the error only when there is one. */
    method AddResult(responseTime: real, statusCode: int, error: Option<string>)
      requires Valid()
      modifies this
      ensures Valid()
      ensures responseTimes == old(responseTimes) + [responseTime]
      ensures statusCodes == old(statusCodes) + [statusCode]
      ensures errors == if error.Some? && error.value != "" then old(errors) + [error.value] else old(errors)
    {
      responseTimes := responseTimes + [responseTime];
      statusCodes := statusCodes + [statusCode];
      if error.Some? && error.value != "" {
        errors := errors + [error.value];
      }
    }

    /** `get_stats`; `Failure` is the division by zero when every response time is zero. */
    function GetStats(): (r: Result<Stats, string>)
      reads this
      requires Valid()
      ensures responseTimes == [] ==> r == Success(Stats(endpointName, 0, 0, 0, 0.0, None, errors))
      ensures responseTimes != [] ==> (r.Failure? <==> Sum(responseTimes) == 0.0)
      ensures r.Success? ==>
        && r.value.totalRequests == |responseTimes|
        && r.value.successfulRequests == CountSuccessful(statusCodes)
        && r.value.successfulRequests + r.value.failedRequests == r.value.totalRequests
        && 0.0 <= r.value.errorRate <= 100.0
      ensures r.Success? && responseTimes != [] ==>
        && r.value.failedRequests == |statusCodes| - CountSuccessful(statusCodes)
        && r.value.errorRate == ErrorRate(r.value.failedRequests, r.value.totalRequests)
        && r.value.errors == TakeErrors(errors)
        && r.value.timing == Some(TimingOf(responseTimes))
        && r.value.timing.value.p95 <= r.value.timing.value.p99
        && r.value.timing.value.p95 in multiset(responseTimes)
        && r.value.timing.value.p99 in multiset(responseTimes)
    {
      if responseTimes == [] then Success(Stats(endpointName, 0, 0, 0, 0.0, None, errors))
      else
        var n := |responseTimes|;
        var successful := CountSuccessful(statusCodes);
        var failed := |statusCodes| - successful;
        var total := Sum(responseTimes);
        if total == 0.0 then Failure(ZeroDivisionText)
        else
          Success(Stats(endpointName, n, successful, failed, ErrorRate(failed, n),
                        Some(TimingOf(responseTimes)), TakeErrors(errors)))
    }
  }

  /** `_make_request`: the elapsed time, the status code and the error message; any exception,
      including an unsupported method, is reported as a 500. */
  function MakeRequest(verb: string, endpoint: string, get: string -> RequestOutcome,
                       post: string -> RequestOutcome, start: real, end: real): (r: (real, int, Option<string>))
    ensures r.0 == end - start
    ensures verb != "GET" && verb != "POST" ==> r.1 == 500 && r.2 == Some("Unsupported method: " + verb)
    ensures r.2.None? <==> (verb == "GET" && get(endpoint).Responded?) || (verb == "POST" && post(endpoint).Responded?)
    ensures r.2.Some? ==> r.1 == 500
    ensures verb == "GET" && get(endpoint).Responded? ==> r.1 == get(endpoint).code
    ensures verb == "GET" && get(endpoint).Raised? ==> r.2 == Some(get(endpoint).message)
    ensures verb == "POST" && post(endpoint).Responded? ==> r.1 == post(endpoint).code
    ensures verb == "POST" && post(endpoint).Raised? ==> r.2 == Some(post(endpoint).message)
  {
    var outcome :=
      if verb == "GET" then get(endpoint)
      else if verb == "POST" then post(endpoint)
      else Raised("Unsupported method: " + verb);
    match outcome
    case Responded(code) => (end - start, code, None)
    case Raised(message) => (end - start, 500, Some(message))
  }
}
