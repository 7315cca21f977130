/**
 * The middleware of pkg/forge/middleware/middleware.go: the configuration
 * options, the sliding-window rate limiter, the validator's error report,
 * CORS headers and the bearer-token guard.
 *
 * Time is an integer count of nanoseconds since the Unix epoch, passed in
 * as `now`; a duration is an integer count of nanoseconds.
 */
module Middleware {
  import opened Wrappers
  import opened Str
  import opened AppErrors
  import opened Controllers

  // ------------------------------------------------------------- options

  datatype CorsConfig = CorsConfig(
    allowOrigins: string,
    allowMethods: string,
    allowHeaders: string,
    allowCredentials: bool,
    exposeHeaders: string,
    maxAge: int)

  datatype MiddlewareConfig = MiddlewareConfig(
    recover: bool,
    logger: bool,
    cors: bool,
    compression: bool,
    requestId: bool,
    bodyLimit: string,
    readTimeout: int,
    writeTimeout: int,
    corsConfig: CorsConfig,
    securityHeaders: bool)

  /** The option constructors; each one's closure writes its own fields of the configuration. */
  datatype MiddlewareOption =
    | WithoutRecover
    | WithoutLogger
    | WithoutCORS
    | WithCORSConfig(config: CorsConfig)
    | WithoutCompression
    | WithoutRequestID
    | WithBodyLimit(limit: string)
    | WithTimeouts(read: int, write: int)
    | WithSecurityHeaders

  /** The configuration after the option's closure has run on it. */
  function ApplyOption(o: MiddlewareOption, c: MiddlewareConfig): (r: MiddlewareConfig)
    ensures o.WithoutRecover? ==> r == c.(recover := false)
    ensures o.WithoutLogger? ==> r == c.(logger := false)
    ensures o.WithoutCORS? ==> r == c.(cors := false)
    ensures o.WithCORSConfig? ==> r == c.(corsConfig := o.config)
    ensures o.WithoutCompression? ==> r == c.(compression := false)
    ensures o.WithoutRequestID? ==> r == c.(requestId := false)
    ensures o.WithBodyLimit? ==> r == c.(bodyLimit := o.limit)
    ensures o.WithTimeouts? ==> r == c.(readTimeout := o.read, writeTimeout := o.write)
    ensures o.WithSecurityHeaders? ==> r == c.(securityHeaders := true)
  {
    match o
    case WithoutRecover => c.(recover := false)
    case WithoutLogger => c.(logger := false)
    case WithoutCORS => c.(cors := false)
    case WithCORSConfig(cc) => c.(corsConfig := cc)
    case WithoutCompression => c.(compression := false)
    case WithoutRequestID => c.(requestId := false)
    case WithBodyLimit(l) => c.(bodyLimit := l)
    case WithTimeouts(rd, wr) => c.(readTimeout := rd, writeTimeout := wr)
    case WithSecurityHeaders => c.(securityHeaders := true)
  }

  /** Applying the same option twice is applying it once. */
  lemma ApplyOptionIdempotent(o: MiddlewareOption, c: MiddlewareConfig)
    ensures ApplyOption(o, ApplyOption(o, c)) == ApplyOption(o, c)
  {
  }

  // --------------------------------------------------------- rate limiter

  const Second: int := 1_000_000_000
  const Minute: int := 60 * Second

  datatype LimiterConfig = LimiterConfig(
    max: int,
    window: int,
    keyFunc: Option<State -> string>,
    skipFunc: Option<State -> bool>)

  /** The default key: the client's IP address. */
  function ClientIP(s: State): string
  {
    s.req.ip
  }

  /** The defaults RateLimit fills in: a limit of 100, a one-minute window and the client IP as key. */
  function LimiterDefaults(c: LimiterConfig): (r: LimiterConfig)
    ensures r.max > 0 && r.window > 0 && r.keyFunc.Some?
    ensures r.max == (if c.max <= 0 then 100 else c.max)
    ensures r.window == (if c.window <= 0 then Minute else c.window)
    ensures c.keyFunc.Some? ==> r.keyFunc == c.keyFunc
    ensures r.skipFunc == c.skipFunc
  {
    LimiterConfig(
      if c.max <= 0 then 100 else c.max,
      if c.window <= 0 then Minute else c.window,
      if c.keyFunc.None? then Some(ClientIP) else c.keyFunc,
      c.skipFunc)
  }

  /** Filling in the defaults a second time changes nothing. */
  lemma LimiterDefaultsIdempotent(c: LimiterConfig)
    ensures LimiterDefaults(LimiterDefaults(c)) == LimiterDefaults(c)
  {
  }

  /** One bucket of a client's window: requests counted since `timestamp`. */
  datatype Bucket = Bucket(timestamp: int, count: int)

  datatype Client = Client(windows: seq<Bucket>, lastAccessed: int)

  /** The first bucket at or after `i` newer than the cutoff, or 0 when none is. */
  function FirstNewerFrom(ws: seq<Bucket>, cutoff: int, i: nat): (r: nat)
    requires i <= |ws|
    decreases |ws| - i
    ensures r == 0 || (i <= r < |ws| && ws[r].timestamp > cutoff)
    ensures r != 0 ==> forall j :: i <= j < r ==> ws[j].timestamp <= cutoff
    ensures r == 0 ==> (i == 0 < |ws| && ws[0].timestamp > cutoff) || forall j :: i <= j < |ws| ==> ws[j].timestamp <= cutoff
  {
    if i == |ws| then 0
    else if ws[i].timestamp > cutoff then i
    else FirstNewerFrom(ws, cutoff, i + 1)
  }

  /** Where the pruned window starts: the first bucket newer than the cutoff, or 0 when none is. */
  function WindowStart(ws: seq<Bucket>, cutoff: int): (r: nat)
    ensures r <= |ws|
  {
    FirstNewerFrom(ws, cutoff, 0)
  }

  /** The buckets kept by the pruning step. */
  function Prune(ws: seq<Bucket>, cutoff: int): (r: seq<Bucket>)
    ensures |r| <= |ws| && r == ws[|ws| - |r|..]
  {
    ws[WindowStart(ws, cutoff)..]
  }

  /**
   * Pruning drops only buckets at or before the cutoff, and only those in
   * front of the first newer bucket; when no bucket is newer nothing is
   * dropped and the expired buckets keep counting.
   */
  lemma PruneDropsOnlyExpired(ws: seq<Bucket>, cutoff: int)
    ensures forall j :: 0 <= j < |ws| - |Prune(ws, cutoff)| ==> ws[j].timestamp <= cutoff
    ensures (forall j :: 0 <= j < |ws| ==> ws[j].timestamp <= cutoff) ==> Prune(ws, cutoff) == ws
    ensures Prune(ws, cutoff) != ws ==> Prune(ws, cutoff)[0].timestamp > cutoff
  {
  }

  /** Buckets in time order, each counting at least one request. */
  ghost predicate Ordered(ws: seq<Bucket>)
  {
    (forall i, j :: 0 <= i < j < |ws| ==> ws[i].timestamp <= ws[j].timestamp)
    && (forall i :: 0 <= i < |ws| ==> ws[i].count >= 1)
  }

  /** Pruning buckets in time order leaves them in time order. */
  lemma PruneOrdered(ws: seq<Bucket>, cutoff: int)
    requires Ordered(ws)
    ensures Ordered(Prune(ws, cutoff))
  {
  }

  /** The pruned window holds only unexpired buckets, or everything when no bucket is unexpired. */
  lemma PruneUnexpired(ws: seq<Bucket>, cutoff: int)
    requires Ordered(ws)
    ensures (forall b :: b in Prune(ws, cutoff) ==> b.timestamp > cutoff) || Prune(ws, cutoff) == ws
  {
    var k := WindowStart(ws, cutoff);
    if k > 0 {
      forall b | b in Prune(ws, cutoff)
        ensures b.timestamp > cutoff
      {
        var j :| 0 <= j < |ws| - k && ws[k..][j] == b;
        assert ws[k + j] == b;
      }
    }
  }

  /** The number of requests the buckets count. */
  function Total(ws: seq<Bucket>): int
  {
    if ws == [] then 0 else Total(ws[..|ws| - 1]) + ws[|ws| - 1].count
  }

  lemma {:induction false} TotalNonNegative(ws: seq<Bucket>)
    requires Ordered(ws)
    ensures Total(ws) >= |ws|
    decreases |ws|
  {
    if ws != [] {
      TotalNonNegative(ws[..|ws| - 1]);
    }
  }

  /** The buckets after admitting a request at `now`: the last bucket is bumped when under a second old, else a new bucket opens. */
  function Record(ws: seq<Bucket>, now: int): seq<Bucket>
  {
    if |ws| > 0 && now - ws[|ws| - 1].timestamp < Second then
      ws[..|ws| - 1] + [ws[|ws| - 1].(count := ws[|ws| - 1].count + 1)]
    else ws + [Bucket(now, 1)]
  }

  /** Admitting a request raises the total by exactly one and adds at most one bucket. */
  lemma RecordTotal(ws: seq<Bucket>, now: int)
    ensures Total(Record(ws, now)) == Total(ws) + 1
    ensures |Record(ws, now)| == |ws| || Record(ws, now) == ws + [Bucket(now, 1)]
  {
    var r := Record(ws, now);
    if |ws| > 0 && now - ws[|ws| - 1].timestamp < Second {
      assert r[..|r| - 1] == ws[..|ws| - 1];
    } else {
      assert r[..|r| - 1] == ws;
    }
  }

  /** With a clock that does not run backwards, admitting a request keeps the buckets in time order. */
  lemma RecordOrdered(ws: seq<Bucket>, now: int)
    requires Ordered(ws)
    requires forall b :: b in ws ==> b.timestamp <= now
    ensures Ordered(Record(ws, now))
    ensures forall b :: b in Record(ws, now) ==> b.timestamp <= now
  {
    var r := Record(ws, now);
    if |ws| > 0 && now - ws[|ws| - 1].timestamp < Second {
      assert forall i :: 0 <= i < |ws| - 1 ==> r[i] == ws[i];
      assert r[|ws| - 1].timestamp == ws[|ws| - 1].timestamp;
    } else {
      assert forall i :: 0 <= i < |ws| ==> r[i] == ws[i];
      assert forall i :: 0 <= i < |ws| ==> ws[i] in ws;
    }
  }

  /** The window-start loop: the index of the first bucket newer than the cutoff, or 0. */
  method FindWindowStart(ws: seq<Bucket>, cutoff: int) returns (start: nat)
    ensures start == WindowStart(ws, cutoff)
  {
    start := 0;
    var i := 0;
    while i < |ws|
      invariant 0 <= i <= |ws|
      invariant FirstNewerFrom(ws, cutoff, i) == WindowStart(ws, cutoff)
    {
      if ws[i].timestamp > cutoff {
        start := i;
        return;
      }
      i := i + 1;
    }
  }

  /** The summing loop. */
  method SumCounts(ws: seq<Bucket>) returns (count: int)
    ensures count == Total(ws)
  {
    count := 0;
    var i := 0;
    while i < |ws|
      invariant 0 <= i <= |ws|
      invariant count == Total(ws[..i])
    {
      assert ws[..i + 1][..i] == ws[..i];
      count := count + ws[i].count;
      i := i + 1;
    }
    assert ws[..i] == ws;
  }

  /** ctx.Set: a response header. */
  function SetHeader(s: State, k: string, v: string): State
  {
    s.(respHeaders := s.respHeaders[k := v])
  }

  /** The headers of a request over the limit. */
  function LimitedHeaders(s: State, c: LimiterConfig, now: int): State
  {
    var s1 := SetHeader(s, "Retry-After", IntToString(c.window / Second));
    var s2 := SetHeader(s1, "X-RateLimit-Limit", IntToString(c.max));
    var s3 := SetHeader(s2, "X-RateLimit-Remaining", "0");
    SetHeader(s3, "X-RateLimit-Reset", IntToString((now + c.window) / Second))
  }

  /** The headers of an admitted request. */
  function AdmittedHeaders(s: State, c: LimiterConfig, now: int, remaining: int): State
  {
    var s1 := SetHeader(s, "X-RateLimit-Limit", IntToString(c.max));
    var s2 := SetHeader(s1, "X-RateLimit-Remaining", IntToString(remaining));
    SetHeader(s2, "X-RateLimit-Reset", IntToString((now + c.window) / Second))
  }

  lemma AdmittedRemaining(s: State, c: LimiterConfig, now: int, remaining: int)
    ensures AdmittedHeaders(s, c, now, remaining).respHeaders["X-RateLimit-Remaining"] == IntToString(remaining)
    ensures AdmittedHeaders(s, c, now, remaining).respHeaders["X-RateLimit-Limit"] == IntToString(c.max)
  {
  }

  /** The client a key stands for, or a fresh one with no buckets. */
  function ClientOf(clients: map<string, Client>, key: string): Client
  {
    if key in clients then clients[key] else Client([], 0)
  }

  /** The middleware RateLimit returns, with its per-key client table. */
  class RateLimiter {
    const config: LimiterConfig
    var clients: map<string, Client>

    /** RateLimit: the configuration with its defaults and an empty client table. */
    constructor (c: LimiterConfig)
      ensures config == LimiterDefaults(c) && clients == map[]
    {
      config := LimiterDefaults(c);
      clients := map[];
    }

    /** The key the configuration assigns a request. */
    function KeyOf(s: State): string
    {
      match config.keyFunc
      case Some(f) => f(s)
      case None => ClientIP(s)
    }

    predicate Skips(s: State)
    {
      config.skipFunc.Some? && config.skipFunc.value(s)
    }

    /**
     * One request through the limiter.  A skipped request goes straight to
     * `next` and touches no client.  Otherwise the client's buckets are
     * pruned to the window and summed; at the limit the request is refused
     * with a 429 AppError and no bucket is added, and below it the request
     * is recorded and passed on with the remaining allowance in a header.
     */
    method Handle(next: HandlerFunc, s: State, now: int) returns (out: Outcome)
      modifies this
      ensures Skips(s) ==> out == next(s) && clients == old(clients)
      ensures !Skips(s) && Total(PrunedFor(old(clients), s, now)) >= config.max ==>
        && clients == old(clients)[KeyOf(s) := Client(PrunedFor(old(clients), s, now), now)]
        && out.state == LimitedHeaders(s, config, now)
        && out.err.Some? && out.err.value.App?
        && out.err.value.app.message == "Rate limit exceeded" && out.err.value.app.statusCode == 429
      ensures !Skips(s) && Total(PrunedFor(old(clients), s, now)) < config.max ==>
        && clients == old(clients)[KeyOf(s) := Client(Record(PrunedFor(old(clients), s, now), now), now)]
        && out == next(AdmittedFor(old(clients), s, now))
    {
      if config.skipFunc.Some? && config.skipFunc.value(s) {
        out := next(s);
        return;
      }
      out := Count(next, s, now);
    }

    /** Handle past the skip check: count the request against its client's window. */
    method Count(next: HandlerFunc, s: State, now: int) returns (out: Outcome)
      modifies this
      ensures Total(PrunedFor(old(clients), s, now)) >= config.max ==>
        && clients == old(clients)[KeyOf(s) := Client(PrunedFor(old(clients), s, now), now)]
        && out.state == LimitedHeaders(s, config, now)
        && out.err.Some? && out.err.value.App?
        && out.err.value.app.message == "Rate limit exceeded" && out.err.value.app.statusCode == 429
      ensures Total(PrunedFor(old(clients), s, now)) < config.max ==>
        && clients == old(clients)[KeyOf(s) := Client(Record(PrunedFor(old(clients), s, now), now), now)]
        && out == next(AdmittedFor(old(clients), s, now))
    {
      var key := KeyOf(s);
      var c := ClientOf(clients, key);
      var pruned, count := CurrentWindow(c.windows, now - config.window);
      ghost var before := clients;
      PrunedForKey(before, s, now, key);
      assert pruned == PrunedFor(before, s, now);
      if count >= config.max {
        out := Refuse(s, now, key, pruned);
      } else {
        var remaining := config.max - count - 1;
        assert remaining == Remaining(before, s, now);
        out := Pass(next, s, now, key, pruned, remaining);
        assert clients == before[key := Client(Record(pruned, now), now)];
      }
    }

    lemma PrunedForKey(cl: map<string, Client>, s: State, now: int, key: string)
      requires key == KeyOf(s)
      ensures PrunedFor(cl, s, now) == Prune(ClientOf(cl, key).windows, now - config.window)
    {
    }

    /** At the limit: the pruned buckets are kept, no bucket is added, and the request gets a 429. */
    method Refuse(s: State, now: int, key: string, pruned: seq<Bucket>) returns (out: Outcome)
      modifies this
      ensures clients == old(clients)[key := Client(pruned, now)]
      ensures out.state == LimitedHeaders(s, config, now)
      ensures out.err.Some? && out.err.value.App?
      ensures out.err.value.app.message == "Rate limit exceeded" && out.err.value.app.statusCode == 429
    {
      var e := NewAppError("Rate limit exceeded", 429);
      out := Outcome(LimitedHeaders(s, config, now), Some(App(e)));
      clients := clients[key := Client(pruned, now)];
    }

    /** Below the limit: the request is recorded and passed on with `remaining`, the allowance left after it. */
    method Pass(next: HandlerFunc, s: State, now: int, key: string, pruned: seq<Bucket>, remaining: int) returns (out: Outcome)
      modifies this
      ensures clients == old(clients)[key := Client(Record(pruned, now), now)]
      ensures out == next(AdmittedHeaders(s, config, now, remaining))
    {
      var ws := Admit(pruned, now);
      var admitted := AdmittedHeaders(s, config, now, remaining);
      clients := clients[key := Client(ws, now)];
      out := next(admitted);
    }

    /** The client's buckets for a request, pruned to the window ending at `now`. */
    function PrunedFor(cl: map<string, Client>, s: State, now: int): seq<Bucket>
    {
      Prune(ClientOf(cl, KeyOf(s)).windows, now - config.window)
    }

    /** The request an admitted request passes on: its headers report the allowance left. */
    function AdmittedFor(cl: map<string, Client>, s: State, now: int): State
    {
      AdmittedHeaders(s, config, now, Remaining(cl, s, now))
    }

    /** The allowance left once this request is counted. */
    function Remaining(cl: map<string, Client>, s: State, now: int): int
    {
      config.max - Total(PrunedFor(cl, s, now)) - 1
    }
  }

  /** The pruning and summing steps: the buckets kept and the requests they count. */
  method CurrentWindow(ws: seq<Bucket>, cutoff: int) returns (pruned: seq<Bucket>, count: int)
    ensures pruned == Prune(ws, cutoff) && count == Total(pruned)
  {
    pruned := ws;
    var windowStart := FindWindowStart(ws, cutoff);
    if windowStart > 0 {
      pruned := ws[windowStart..];
    }
    count := SumCounts(pruned);
  }

  /** The bump-or-append step. */
  method Admit(ws: seq<Bucket>, now: int) returns (r: seq<Bucket>)
    ensures r == Record(ws, now)
  {
    r := ws;
    if |r| > 0 && now - r[|r| - 1].timestamp < Second {
      r := r[|r| - 1 := r[|r| - 1].(count := r[|r| - 1].count + 1)];
    } else {
      r := r + [Bucket(now, 1)];
    }
  }

  // ------------------------------------------------------------- validator

  /** One failing field as the validator library reports it. */
  datatype FieldError = FieldError(field: string, tag: string, param: string, value: string)

  /** What validating the request body gave. */
  datatype Validation = Passed | FieldErrors(errors: seq<FieldError>) | OtherError(err: GoError)

  const KnownTags: seq<string> :=
    ["required", "min", "max", "email", "url", "uuid", "json", "numeric", "alpha", "alphanum", "datetime"]

  /** The message for a failed tag: a fixed text per known tag, the generic one otherwise. */
  function ValidatorMessage(tag: string, param: string): (r: string)
  {
    if tag == "required" then "This field is required"
    else if tag == "min" then "Should be at least " + param
    else if tag == "max" then "Should be at most " + param
    else if tag == "email" then "Invalid email address"
    else if tag == "url" then "Invalid URL format"
    else if tag == "uuid" then "Invalid UUID format"
    else if tag == "json" then "Invalid JSON format"
    else if tag == "numeric" then "Must be a numeric value"
    else if tag == "alpha" then "Must contain only alphabetic characters"
    else if tag == "alphanum" then "Must contain only alphanumeric characters"
    else if tag == "datetime" then "Invalid datetime format, expected: " + param
    else GenericPrefix + tag + "'"
  }

  const GenericPrefix: string := "Validation failed on '"

  /** The generic message is used exactly for the tags without a fixed one, and it names the tag. */
  lemma ValidatorMessageGeneric(tag: string, param: string)
    ensures tag !in KnownTags ==> HasPrefix(ValidatorMessage(tag, param), GenericPrefix + tag)
    ensures tag in KnownTags ==> !HasPrefix(ValidatorMessage(tag, param), GenericPrefix)
  {
    if tag in KnownTags {
      KnownTagMessage(tag, param);
      assert GenericPrefix[0] == 'V';
    } else {
      PrefixOfAppend(GenericPrefix + tag, "'");
    }
  }

  /** A known tag's message is not empty and does not start with a 'V'. */
  lemma KnownTagMessage(tag: string, param: string)
    requires tag in KnownTags
    ensures ValidatorMessage(tag, param) != [] && ValidatorMessage(tag, param)[0] != 'V'
  {
    if tag == "required" || tag == "email" || tag == "url" || tag == "uuid" || tag == "json" {
    } else if tag == "numeric" || tag == "alpha" || tag == "alphanum" {
    } else if tag == "min" {
      HeadOfAppend("Should be at least ", param);
    } else if tag == "max" {
      HeadOfAppend("Should be at most ", param);
    } else if tag == "datetime" {
      HeadOfAppend("Invalid datetime format, expected: ", param);
    } else {
      assert false;
    }
  }

  function IssueFor(fe: FieldError): FieldIssue
  {
    FieldIssue(fe.field, ValidatorMessage(fe.tag, fe.param), fe.value, fe.tag)
  }

  /** The loop filling the result array: one entry per failing field, in order. */
  method BuildIssues(fes: seq<FieldError>) returns (issues: seq<FieldIssue>)
    ensures |issues| == |fes|
    ensures forall k :: 0 <= k < |fes| ==> issues[k] == IssueFor(fes[k])
  {
    var result := new FieldIssue[|fes|](_ => FieldIssue("", "", "", ""));
    var i := 0;
    while i < |fes|
      invariant 0 <= i <= |fes|
      invariant forall k :: 0 <= k < i ==> result[k] == IssueFor(fes[k])
    {
      result[i] := IssueFor(fes[i]);
      i := i + 1;
    }
    issues := result[..];
  }

  /**
   * The Validator middleware: without a body, without a validator or with
   * a valid body it calls `next`; a non-field error gives 422 "Validation
   * failed" wrapping it; field errors give 422 "Validation Error" whose
   * "validation" detail lists one entry per field.
   */
  method ValidatorHandle(hasBody: bool, validation: Option<Validation>, next: HandlerFunc, s: State) returns (out: Outcome)
    ensures !hasBody || validation.None? || validation.value.Passed? ==> out == next(s)
    ensures hasBody && validation.Some? && validation.value.OtherError? ==>
      out.state == s && out.err.Some? && out.err.value.App?
      && out.err.value.app.message == "Validation failed" && out.err.value.app.statusCode == 422
      && out.err.value.app.err == Some(validation.value.err)
    ensures hasBody && validation.Some? && validation.value.FieldErrors? ==>
      out.state == s && out.err.Some? && out.err.value.App?
      && out.err.value.app.message == "Validation Error" && out.err.value.app.statusCode == 422
      && out.err.value.app.details != null
      && out.err.value.app.details.entries == map["validation" := Issues(seq(|validation.value.errors|, k requires 0 <= k < |validation.value.errors| => IssueFor(validation.value.errors[k])))]
  {
    if !hasBody || validation.None? {
      out := next(s);
      return;
    }
    match validation.value
    case Passed =>
      out := next(s);
    case OtherError(err) =>
      var e := NewAppError("Validation failed", 422);
      out := Outcome(s, Some(App(WithError(e, err))));
    case FieldErrors(fes) =>
      var issues := BuildIssues(fes);
      assert issues == seq(|fes|, k requires 0 <= k < |fes| => IssueFor(fes[k]));
      var e := NewAppError("Validation Error", 422);
      e := WithDetail(e, "validation", Issues(issues));
      out := Outcome(s, Some(App(e)));
  }

  /**
   * What validate.Struct is handed: the raw request bytes, or a struct
   * value whose field checks gave `checks`.
   */
  datatype ValidateArg = RawBytes(body: seq<bv8>) | StructArg(checks: Validation)

  /** go-playground/validator's error for a value that is not a struct: here a []byte. */
  const InvalidBytes: GoError := Plain("validator: (nil []uint8)")

  /** validate.Struct: anything but a struct is refused with InvalidValidationError; a struct gets its field checks. */
  function ValidateStruct(arg: ValidateArg): Validation
  {
    match arg
    case RawBytes(_) => OtherError(InvalidBytes)
    case StructArg(checks) => checks
  }

  /**
   * The Validator middleware as written: it validates ctx.Body(), the raw
   * request bytes, so with a body and a validator every request fails
   * with 422 "Validation failed" and no handler runs; the field-error
   * report is never reached.
   */
  method Validator(body: Option<seq<bv8>>, hasValidator: bool, next: HandlerFunc, s: State) returns (out: Outcome)
    ensures body.None? || !hasValidator ==> out == next(s)
    ensures body.Some? && hasValidator ==>
      out.state == s && out.err.Some? && out.err.value.App?
      && out.err.value.app.message == "Validation failed" && out.err.value.app.statusCode == 422
      && out.err.value.app.err == Some(InvalidBytes)
  {
    var validation := if body.Some? && hasValidator then Some(ValidateStruct(RawBytes(body.value))) else None;
    out := ValidatorHandle(body.Some?, validation, next, s);
  }

  // ------------------------------------------------------------------ CORS

  function CorsHeaders(s: State, o: CorsConfig): State
  {
    var s1 := SetHeader(s, "Access-Control-Allow-Origin", o.allowOrigins);
    var s2 := SetHeader(s1, "Access-Control-Allow-Methods", o.allowMethods);
    SetHeader(s2, "Access-Control-Allow-Headers", o.allowHeaders)
  }

  /** CORS: the three headers, then 204 for a preflight OPTIONS request and `next` for any other. */
  function Cors(o: CorsConfig): MiddlewareFunc
  {
    (next: HandlerFunc) => (s: State) =>
      var s1 := CorsHeaders(s, o);
      if s.req.verb == "OPTIONS" then Outcome(s1.(status := 204), None) else next(s1)
  }

  /** Every request gets the three headers; a preflight ends with 204 whatever `next` is, any other reaches `next`. */
  lemma CorsBehaviour(o: CorsConfig, next: HandlerFunc, other: HandlerFunc, s: State)
    ensures var h := CorsHeaders(s, o).respHeaders;
      h["Access-Control-Allow-Origin"] == o.allowOrigins
      && h["Access-Control-Allow-Methods"] == o.allowMethods
      && h["Access-Control-Allow-Headers"] == o.allowHeaders
    ensures s.req.verb == "OPTIONS" ==>
      Cors(o)(next)(s) == Cors(o)(other)(s) && Cors(o)(next)(s) == Outcome(CorsHeaders(s, o).(status := 204), None)
    ensures s.req.verb != "OPTIONS" ==> Cors(o)(next)(s) == next(CorsHeaders(s, o))
  {
  }

  // ----------------------------------------------------------- RequireAuth

  /** The application's auth service, when there is one: token validation gives the claims or an error. */
  datatype AuthService = NoAuth | Auth(validate: string -> Result<map<string, Value>, GoError>)

  /** ctx.Get: a request header, "" when absent. */
  function RequestHeader(s: State, k: string): string
  {
    if k in s.req.headers then s.req.headers[k] else ""
  }

  /** The locals a validated token sets: "user_id" from the "sub" claim (nil when absent) and the claims themselves. */
  function WithClaims(s: State, claims: map<string, Value>): State
  {
    s.(locals := s.locals["user_id" := if "sub" in claims then claims["sub"] else Nil]["claims" := Claims(claims)])
  }

  /**
   * RequireAuth: no token gives the unauthorized sentinel; no auth service
   * gives the internal-error sentinel with a "message" detail written into
   * its shared map; a rejected token gives the unauthorized sentinel
   * wrapping the error; an accepted one sets the locals and calls `next`.
   */
  method RequireAuthHandle(cat: Catalog, auth: AuthService, next: HandlerFunc, s: State) returns (out: Outcome)
    requires cat.Valid()
    modifies cat.internal.details
    ensures RequestHeader(s, "Authorization") == "" ==>
      out == Outcome(s, Some(App(cat.unauthorized))) && unchanged(cat.internal.details)
    ensures RequestHeader(s, "Authorization") != "" && auth.NoAuth? ==>
      out.state == s && out.err.Some? && out.err.value.App? && out.err.value.app.details == cat.internal.details
      && out.err.value.app.statusCode == 500
      && cat.internal.details.entries == old(cat.internal.details.entries)["message" := Text("Authentication system not initialized")]
    ensures RequestHeader(s, "Authorization") != "" && auth.Auth? ==> unchanged(cat.internal.details)
    ensures RequestHeader(s, "Authorization") != "" && auth.Auth? && auth.validate(RequestHeader(s, "Authorization")).Err? ==>
      out == Outcome(s, Some(App(WithError(cat.unauthorized, auth.validate(RequestHeader(s, "Authorization")).error))))
    ensures RequestHeader(s, "Authorization") != "" && auth.Auth? && auth.validate(RequestHeader(s, "Authorization")).Ok? ==>
      out == next(WithClaims(s, auth.validate(RequestHeader(s, "Authorization")).value))
  {
    var token := RequestHeader(s, "Authorization");
    if token == "" {
      return Outcome(s, Some(App(cat.unauthorized)));
    }
    match auth
    case NoAuth =>
      var e := WithDetail(cat.internal, "message", Text("Authentication system not initialized"));
      out := Outcome(s, Some(App(e)));
    case Auth(validate) =>
      match validate(token)
      case Err(err) =>
        out := Outcome(s, Some(App(WithError(cat.unauthorized, err))));
      case Ok(claims) =>
        out := next(WithClaims(s, claims));
  }
}
