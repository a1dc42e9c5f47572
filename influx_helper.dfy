/** The InfluxDB helper: validation of the connection settings, the parameters of an InfluxQL
    query and the payload of a line-protocol write. The client, the HTTP session and the
    data frames are not modelled; a query's JSON answer is an input. */
module InfluxHelper {
  import opened Wrappers
  import opened Text

  /** `timeout_pair`: the connect and read timeouts, in that order. */
  function TimeoutPair(connectTimeout: real, readTimeout: real): (p: (real, real))
    ensures p.0 == connectTimeout && p.1 == readTimeout
  {
    (connectTimeout, readTimeout)
  }

  const DefaultConnectTimeout: real := 5000.0
  const DefaultReadTimeout: real := 30000.0

  /** The `ValueError`s the constructor raises. */
  datatype ConfigError =
    | IsNone(name: string)
    | NotLatin1(name: string, cleaned: string)
    | TokenPlaceholder

  const IdeographicSpace: char := '\U{3000}'

  predicate Latin1(s: string) {
    forall i :: 0 <= i < |s| ==> s[i] as int <= 0xFF
  }

  /** `val.strip().replace("　", " ")`. */
  function Clean(val: string): (c: string)
    ensures |c| <= |val|
    ensures forall i :: 0 <= i < |c| ==> c[i] != IdeographicSpace
    ensures c == [] || (!IsPyWhitespace(c[0]) && !IsPyWhitespace(c[|c| - 1]))
  {
    var s := PyStrip(val);
    var c := ReplaceChar(s, IdeographicSpace, ' ');
    assert c != [] ==> c[0] == s[0] && c[|c| - 1] == s[|s| - 1];
    c
  }

  /** `_to_ascii_or_raise(name, val)`: the cleaned value, or the error for a missing value or
      one with a character beyond Latin-1. */
  function ToAsciiOrRaise(name: string, val: Option<string>): (r: Result<string, ConfigError>)
    ensures val.None? ==> r == Failure(IsNone(name))
    ensures val.Some? ==> (r.Success? <==> Latin1(Clean(val.value)))
    ensures val.Some? && r.Success? ==> r.value == Clean(val.value)
    ensures val.Some? && r.Failure? ==> r.error == NotLatin1(name, Clean(val.value))
  {
    match val
    case None => Failure(IsNone(name))
    case Some(v) =>
      var cleaned := Clean(v);
      if Latin1(cleaned) then Success(cleaned) else Failure(NotLatin1(name, cleaned))
  }

  /** A cleaned value passes the validator again unchanged. */
  lemma ToAsciiIdempotent(name: string, val: string)
    requires ToAsciiOrRaise(name, Some(val)).Success?
    ensures var c := ToAsciiOrRaise(name, Some(val)).value; ToAsciiOrRaise(name, Some(c)) == Success(c)
  {
    var c := Clean(val);
    StripOfStripped(c, IsPyWhitespace);
    assert ReplaceChar(c, IdeographicSpace, ' ') == c;
  }

  /** The message of the error raised for a missing value. */
  function NoneMessage(name: string): string {
    name + " is None"
  }

  /** The retention policy argument: absent, a string, or a value of another type (of which only
      its truthiness matters). */
  datatype RetentionPolicy = NoPolicy | PolicyText(text: string) | PolicyOther(truthy: bool)

  predicate Truthy(rp: RetentionPolicy) {
    match rp
    case NoPolicy => false
    case PolicyText(t) => t != ""
    case PolicyOther(b) => b
  }

  const TokenPlaceholderPrefix := "替换为"

  /** The settings the helper keeps once constructed. */
  datatype Helper = Helper(
    url: string,
    org: string,
    bucket: string,
    rp: RetentionPolicy,
    token: string,
    connectTimeout: real,
    readTimeout: real,
    timeoutTuple: (real, real))

  /** Whether the constructor refuses the token. */
  predicate BadToken(token: Option<string>) {
    token.None? || token.value == "" || PyStrip(token.value) == "" || IsPrefix(TokenPlaceholderPrefix, token.value)
  }

  /** Whether org, bucket and (when it is a string) the stripped retention policy all pass the
      Latin-1 check, so that only the token is left to decide. */
  predicate SettingsPass(org: Option<string>, bucket: Option<string>, rp: RetentionPolicy) {
    && ToAsciiOrRaise("org", org).Success?
    && ToAsciiOrRaise("bucket", bucket).Success?
    && (rp.PolicyText? ==> ToAsciiOrRaise("rp", Some(PyStrip(rp.text))).Success?)
  }

  /** `InfluxV2Helper.__init__`: the settings are checked in the order org, bucket, rp, token. */
  function NewHelper(url: string, org: Option<string>, token: Option<string>, bucket: Option<string>,
                     rp: RetentionPolicy, connectTimeout: real, readTimeout: real): (r: Result<Helper, ConfigError>)
    ensures ToAsciiOrRaise("org", org).Failure? ==> r == Failure(ToAsciiOrRaise("org", org).error)
    ensures ToAsciiOrRaise("org", org).Success? && ToAsciiOrRaise("bucket", bucket).Failure? ==>
              r == Failure(ToAsciiOrRaise("bucket", bucket).error)
    ensures ToAsciiOrRaise("org", org).Success? && ToAsciiOrRaise("bucket", bucket).Success? && rp.PolicyText? ==>
              (ToAsciiOrRaise("rp", Some(PyStrip(rp.text))).Failure? ==> r == Failure(ToAsciiOrRaise("rp", Some(PyStrip(rp.text))).error))
    ensures r.Success? ==>
      && !BadToken(token)
      && r.value.url == RStripChar(url, '/')
      && r.value.org == Clean(org.value) && r.value.bucket == Clean(bucket.value)
      && r.value.rp == (if rp.PolicyText? then PolicyText(PyStrip(rp.text)) else rp)
      && r.value.token == PyStrip(token.value)
      && r.value.timeoutTuple == (connectTimeout, readTimeout)
    ensures BadToken(token) ==> r.Failure?
    ensures SettingsPass(org, bucket, rp) ==> (r.Success? <==> !BadToken(token))
    ensures SettingsPass(org, bucket, rp) && BadToken(token) ==> r == Failure(TokenPlaceholder)
  {
    var storedRp := if rp.PolicyText? then PolicyText(PyStrip(rp.text)) else rp;
    match ToAsciiOrRaise("org", org)
    case Failure(e) => Failure(e)
    case Success(cleanOrg) =>
      match ToAsciiOrRaise("bucket", bucket)
      case Failure(e) => Failure(e)
      case Success(cleanBucket) =>
        if storedRp.PolicyText? && ToAsciiOrRaise("rp", Some(storedRp.text)).Failure? then
          Failure(ToAsciiOrRaise("rp", Some(storedRp.text)).error)
        else if BadToken(token) then Failure(TokenPlaceholder)
        else
          Success(Helper(RStripChar(url, '/'), cleanOrg, cleanBucket, storedRp, PyStrip(token.value),
                         connectTimeout, readTimeout, TimeoutPair(connectTimeout, readTimeout)))
  }

  /** A token still holding the placeholder text, or one of only white space, is refused even
      when every other setting is valid. */
  lemma PlaceholderTokenRefused(url: string, org: string, bucket: string, suffix: string)
    requires Latin1(Clean(org)) && Latin1(Clean(bucket))
    ensures NewHelper(url, Some(org), Some(TokenPlaceholderPrefix + suffix), Some(bucket), NoPolicy,
                      DefaultConnectTimeout, DefaultReadTimeout) == Failure(TokenPlaceholder)
    ensures NewHelper(url, Some(org), Some("  "), Some(bucket), NoPolicy,
                      DefaultConnectTimeout, DefaultReadTimeout) == Failure(TokenPlaceholder)
  {
    assert (TokenPlaceholderPrefix + suffix)[..|TokenPlaceholderPrefix|] == TokenPlaceholderPrefix;
    assert PyStrip("  ") == "";
  }

  // ---------------------------------------------------------------------------
  // Queries and writes

  /** The URL and parameters `query_influxql` sends. */
  datatype QueryRequest = QueryRequest(url: string, db: string, q: string, rp: Option<RetentionPolicy>)

  /** `query_influxql`'s request: `db` is the given database or else the bucket, and `rp` is sent
      only when the argument or the stored policy is truthy, the argument first. */
  function QueryParams(h: Helper, ql: string, database: Option<string>, rp: Option<string>): (r: QueryRequest)
    ensures r.url == h.url + "/query" && r.q == ql
    ensures r.db == (if database.Some? && database.value != "" then database.value else h.bucket)
    ensures r.rp.Some? <==> (rp.Some? && rp.value != "") || Truthy(h.rp)
    ensures rp.Some? && rp.value != "" ==> r.rp == Some(PolicyText(rp.value))
    ensures !(rp.Some? && rp.value != "") && Truthy(h.rp) ==> r.rp == Some(h.rp)
  {
    var db := if database.Some? && database.value != "" then database.value else h.bucket;
    var argTruthy := rp.Some? && rp.value != "";
    var sent := if argTruthy then Some(PolicyText(rp.value)) else if Truthy(h.rp) then Some(h.rp) else None;
    QueryRequest(h.url + "/query", db, ql, sent)
  }

  /** One series of an InfluxQL answer; missing keys are empty. */
  datatype Series = Series(columns: seq<string>, values: seq<seq<string>>, tags: map<string, string>)

  /** One statement result; `None` when it has no "series" key. */
  datatype StatementResult = StatementResult(series: Option<seq<Series>>)

  /** One data frame per series: its values under its columns, with each tag as a constant column. */
  datatype Frame = Frame(columns: seq<string>, rows: seq<seq<string>>, constants: map<string, string>)

  /** The frames `query_influxql` concatenates; none when the answer has no results or the
      first result has no series. */
  function QueryFrames(results: seq<StatementResult>): (frames: seq<Frame>)
    ensures results == [] ==> frames == []
    ensures results != [] && results[0].series.None? ==> frames == []
    ensures results != [] && results[0].series.Some? ==>
      && |frames| == |results[0].series.value|
      && forall k :: 0 <= k < |frames| ==>
           frames[k] == Frame(results[0].series.value[k].columns, results[0].series.value[k].values,
                              results[0].series.value[k].tags)
  {
    if results == [] || results[0].series.None? then []
    else
      var series := results[0].series.value;
      seq(|series|, k requires 0 <= k < |series| => Frame(series[k].columns, series[k].values, series[k].tags))
  }

  /** What `write_line_protocol` hands to the write API. */
  datatype LineWrite = LineWrite(bucket: string, org: string, record: string)

  /** `write_line_protocol`: the lines joined by newlines, to the helper's bucket and org. */
  function WriteLineProtocol(h: Helper, lines: seq<string>): (w: LineWrite)
    ensures w.bucket == h.bucket && w.org == h.org
    ensures (forall k :: 0 <= k < |lines| ==> '\n' !in lines[k]) && lines != [] ==> Split(w.record, '\n') == lines
  {
    var payload := Join(lines, "\n");
    if (forall k :: 0 <= k < |lines| ==> '\n' !in lines[k]) && lines != [] then
      SplitJoin(lines);
      LineWrite(h.bucket, h.org, payload)
    else
      LineWrite(h.bucket, h.org, payload)
  }

  /** A text without the separator splits into itself. */
  lemma {:induction false} SplitNoSeparator(s: string, sep: char)
    requires sep !in s
    ensures Split(s, sep) == [s]
  {
    if s != [] {
      SplitNoSeparator(s[1..], sep);
      assert [s[0]] + s[1..] == s;
    }
  }

  /** Splitting at the first separator. */
  lemma {:induction false} SplitAtFirst(a: string, sep: char, b: string)
    requires sep !in a
    ensures Split(a + [sep] + b, sep) == [a] + Split(b, sep)
  {
    if a == [] {
      assert a + [sep] + b == [sep] + b;
      assert ([sep] + b)[1..] == b;
    } else {
      SplitAtFirst(a[1..], sep, b);
      assert (a + [sep] + b)[1..] == a[1..] + [sep] + b;
      assert [a[0]] + a[1..] == a;
    }
  }

  /** Lines without newlines come back from their newline-joined text. */
  lemma {:induction false} SplitJoin(lines: seq<string>)
    requires forall k :: 0 <= k < |lines| ==> '\n' !in lines[k]
    requires lines != []
    ensures Split(Join(lines, "\n"), '\n') == lines
  {
    if |lines| == 1 {
      SplitNoSeparator(lines[0], '\n');
    } else {
      var rest := lines[1..];
      assert forall k :: 0 <= k < |rest| ==> rest[k] == lines[k + 1];
      SplitJoin(rest);
      assert Join(lines, "\n") == lines[0] + ['\n'] + Join(rest, "\n");
      SplitAtFirst(lines[0], '\n', Join(rest, "\n"));
      assert lines == [lines[0]] + rest;
    }
  }
}
