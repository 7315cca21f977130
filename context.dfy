/**
 * The request context helpers of pkg/flux/context.go: the validation
 * report and its text, the status rule of Context.Error, content
 * negotiation, query defaults and the bind-then-validate error mapping.
 *
 * The validator library's outcome is an input (`Validation`), and a Go
 * map's iteration order is a nondeterministic choice.
 */
module FluxContext {
  import opened Wrappers
  import opened Str
  import opened AppErrors
  import opened Middleware

  // ------------------------------------------------------ ValidationErrors

  /** The messages of `ve` in the order `order` visits its keys. */
  function MessagesIn(ve: map<string, string>, order: seq<string>): (r: seq<string>)
    requires forall k :: k in order ==> k in ve
    ensures |r| == |order|
    ensures forall i :: 0 <= i < |order| ==> r[i] == ve[order[i]]
  {
    if order == [] then [] else MessagesIn(ve, order[..|order| - 1]) + [ve[order[|order| - 1]]]
  }

  /** `order` visits every key of `ve` exactly once. */
  predicate Enumerates(ve: map<string, string>, order: seq<string>)
  {
    (forall k :: k in order ==> k in ve) && (forall k :: k in ve ==> k in order)
    && (forall i, j :: 0 <= i < j < |order| ==> order[i] != order[j])
    && |order| == |ve|
  }

  /**
   * ValidationErrors.Error: "" for an empty map, otherwise every message
   * joined by "; " in the map's iteration order, which Go leaves
   * unspecified.
   */
  method ValidationErrorsText(ve: map<string, string>) returns (r: string)
    ensures ve == map[] ==> r == ""
    ensures ve != map[] ==> exists order :: Enumerates(ve, order) && r == Join(MessagesIn(ve, order), "; ")
  {
    if |ve| == 0 {
      return "";
    }
    var msgs: seq<string> := [];
    ghost var order: seq<string> := [];
    var todo := ve.Keys;
    while todo != {}
      invariant Visited(ve, order, todo)
      invariant msgs == MessagesIn(ve, order)
      decreases todo
    {
      var k :| k in todo;
      VisitStep(ve, order, todo, k);
      msgs := msgs + [ve[k]];
      order := order + [k];
      todo := todo - {k};
    }
    r := Join(msgs, "; ");
    VisitedAll(ve, order);
  }

  /** `order` lists, once each, the keys of `ve` not in `todo`. */
  ghost predicate Visited(ve: map<string, string>, order: seq<string>, todo: set<string>)
  {
    && todo <= ve.Keys
    && (forall k :: k in order <==> k in ve.Keys - todo)
    && (forall i, j :: 0 <= i < j < |order| ==> order[i] != order[j])
    && |order| == |ve.Keys - todo|
  }

  lemma VisitStep(ve: map<string, string>, order: seq<string>, todo: set<string>, k: string)
    requires Visited(ve, order, todo) && k in todo
    ensures Visited(ve, order + [k], todo - {k})
    ensures MessagesIn(ve, order + [k]) == MessagesIn(ve, order) + [ve[k]]
  {
    assert (order + [k])[..|order|] == order;
    assert ve.Keys - (todo - {k}) == (ve.Keys - todo) + {k};
  }

  lemma VisitedAll(ve: map<string, string>, order: seq<string>)
    requires Visited(ve, order, {})
    ensures Enumerates(ve, order)
  {
    assert ve.Keys - {} == ve.Keys;
  }

  /** Whatever the order, the text of a one-entry map is its message. */
  lemma ValidationErrorsSingle(field: string, message: string, order: seq<string>)
    requires Enumerates(map[field := message], order)
    ensures Join(MessagesIn(map[field := message], order), "; ") == message
  {
    assert |order| == 1;
    assert order[0] in order;
    assert MessagesIn(map[field := message], order) == [message];
  }

  // --------------------------------------------------- ValidateWithDetails

  /** The field name with an initial 'A'..'Z' lower-cased; the rest stays as it is. */
  function LowerFirst(name: string): (r: string)
    ensures |r| == |name|
    ensures r != [] ==> !IsUpper(r[0])
    ensures r != [] ==> r[1..] == name[1..]
    ensures name != [] && !IsUpper(name[0]) ==> r == name
  {
    if |name| > 0 && IsUpper(name[0]) then [Lower(name[0])] + name[1..] else name
  }

  lemma LowerFirstIdempotent(name: string)
    ensures LowerFirst(LowerFirst(name)) == LowerFirst(name)
  {
  }

  /** The message ValidateWithDetails gives a field that failed `tag`. */
  function DetailMessage(field: string, tag: string, param: string): string
  {
    if tag == "required" then "The " + field + " field is required"
    else if tag == "email" then "The " + field + " must be a valid email address"
    else if tag == "min" then "The " + field + " must be at least " + param + " characters"
    else if tag == "max" then "The " + field + " must not be greater than " + param + " characters"
    else if tag == "url" then "The " + field + " must be a valid URL"
    else "The " + field + " field is invalid (failed " + tag + " validation)"
  }

  /** Every message starts with "The " and the field name. */
  lemma DetailMessageNamesField(field: string, tag: string, param: string)
    ensures HasPrefix(DetailMessage(field, tag, param), "The " + field + " ")
  {
    var head := "The " + field;
    if tag == "required" {
      SpacedPrefix(head, " field is required");
    } else if tag == "email" {
      SpacedPrefix(head, " must be a valid email address");
    } else if tag == "min" {
      SpacedPrefix(head, " must be at least ");
      PrefixExtend(head + " must be at least ", param, head + " ");
      PrefixExtend(head + " must be at least " + param, " characters", head + " ");
    } else if tag == "max" {
      SpacedPrefix(head, " must not be greater than ");
      PrefixExtend(head + " must not be greater than ", param, head + " ");
      PrefixExtend(head + " must not be greater than " + param, " characters", head + " ");
    } else if tag == "url" {
      SpacedPrefix(head, " must be a valid URL");
    } else {
      SpacedPrefix(head, " field is invalid (failed ");
      PrefixExtend(head + " field is invalid (failed ", tag, head + " ");
      PrefixExtend(head + " field is invalid (failed " + tag, " validation)", head + " ");
    }
  }

  /** The report after the first `n` field errors: later errors on the same field overwrite earlier ones. */
  function DetailsUpTo(fes: seq<FieldError>, n: nat): map<string, string>
    requires n <= |fes|
  {
    if n == 0 then map[]
    else
      var e := fes[n - 1];
      var f := LowerFirst(e.field);
      DetailsUpTo(fes, n - 1)[f := DetailMessage(f, e.tag, e.param)]
  }

  /** A field is reported exactly when some error names it. */
  lemma {:induction false} DetailsUpToKeys(fes: seq<FieldError>, n: nat, f: string)
    requires n <= |fes|
    ensures f in DetailsUpTo(fes, n) <==> exists i :: 0 <= i < n && LowerFirst(fes[i].field) == f
    decreases n
  {
    if n > 0 {
      DetailsUpToKeys(fes, n - 1, f);
    }
  }

  /** A reported field carries the message of the last error naming it. */
  lemma {:induction false} DetailsUpToLastWins(fes: seq<FieldError>, n: nat, i: nat)
    requires i < n <= |fes|
    requires forall j :: i < j < n ==> LowerFirst(fes[j].field) != LowerFirst(fes[i].field)
    ensures var f := LowerFirst(fes[i].field);
      f in DetailsUpTo(fes, n) && DetailsUpTo(fes, n)[f] == DetailMessage(f, fes[i].tag, fes[i].param)
    decreases n
  {
    var f := LowerFirst(fes[i].field);
    var e := fes[n - 1];
    if n - 1 > i {
      DetailsUpToLastWins(fes, n - 1, i);
      assert LowerFirst(e.field) != f;
      assert DetailsUpTo(fes, n) == DetailsUpTo(fes, n - 1)[LowerFirst(e.field) := DetailMessage(LowerFirst(e.field), e.tag, e.param)];
    } else {
      assert e == fes[i];
    }
  }

  /**
   * ValidateWithDetails: nil for valid input, {"_error": text} for an error
   * that is not a list of field errors, and one message per failing field
   * otherwise.
   */
  method ValidateWithDetails(v: Validation) returns (r: Option<map<string, string>>)
    ensures v.Passed? ==> r.None?
    ensures v.OtherError? ==> r == Some(map["_error" := ErrorText(v.err)])
    ensures v.FieldErrors? ==> r == Some(DetailsUpTo(v.errors, |v.errors|))
  {
    match v
    case Passed =>
      r := None;
    case OtherError(err) =>
      r := Some(map["_error" := ErrorText(err)]);
    case FieldErrors(fes) =>
      var errors := FieldDetails(fes);
      r := Some(errors);
  }

  /** ValidateWithDetails' loop over the field errors. */
  method FieldDetails(fes: seq<FieldError>) returns (errors: map<string, string>)
    ensures errors == DetailsUpTo(fes, |fes|)
  {
    errors := map[];
    var i := 0;
    while i < |fes|
      invariant 0 <= i <= |fes|
      invariant errors == DetailsUpTo(fes, i)
    {
      var fieldName := fes[i].field;
      if |fieldName| > 0 && 'A' <= fieldName[0] <= 'Z' {
        fieldName := [(fieldName[0] as int + 32) as char] + fieldName[1..];
      }
      assert fieldName == LowerFirst(fes[i].field);
      DetailsUpToStep(fes, i);
      errors := errors[fieldName := DetailMessage(fieldName, fes[i].tag, fes[i].param)];
      i := i + 1;
    }
  }

  lemma DetailsUpToStep(fes: seq<FieldError>, i: nat)
    requires i < |fes|
    ensures var f := LowerFirst(fes[i].field);
      DetailsUpTo(fes, i + 1) == DetailsUpTo(fes, i)[f := DetailMessage(f, fes[i].tag, fes[i].param)]
  {
  }

  // ---------------------------------------------------------- Context.Error

  /**
   * Context.Error: an AppError (as the error itself, not found through a
   * wrap chain) answers with its own status only when it carries a code,
   * else 500; any other error answers 500 with a new "Internal Server
   * Error" wrapping it.
   */
  method ContextError(err: GoError) returns (status: int, body: AppError)
    ensures err.App? ==> body == err.app && status == (if err.app.code != "" then err.app.statusCode else 500)
    ensures !err.App? ==>
      status == 500 && body.message == "Internal Server Error" && body.statusCode == 500 && body.err == Some(err)
  {
    if err.App? {
      status := 500;
      if err.app.code != "" {
        status := err.app.statusCode;
      }
      body := err.app;
    } else {
      var e := NewAppError("Internal Server Error", 500);
      body := WithError(e, err);
      status := 500;
    }
  }

  // -------------------------------------------------------------- Negotiate

  /** The data handed to Negotiate: a Go string or anything else. */
  datatype Payload = StringData(s: string) | OtherData(kind: string)

  datatype Format = XML | PlainText | JSON

  /** Negotiate on the Accept header. */
  function Negotiate(accept: string, data: Payload): (r: Format)
  {
    if accept == "application/xml" || accept == "text/xml" then XML
    else if accept == "text/plain" && data.StringData? then PlainText
    else JSON
  }

  /** XML exactly for the two XML types, text exactly for "text/plain" with a string, and JSON for everything else. */
  lemma NegotiateCases(accept: string, data: Payload)
    ensures Negotiate(accept, data) == XML <==> accept == "application/xml" || accept == "text/xml"
    ensures Negotiate(accept, data) == PlainText <==> accept == "text/plain" && data.StringData?
    ensures Negotiate(accept, data) == JSON <==>
      accept != "application/xml" && accept != "text/xml" && (accept != "text/plain" || data.OtherData?)
  {
  }

  // ------------------------------------------------------------ QueryDefault

  /** ctx.Query: the query parameter, "" when absent. */
  function Query(query: map<string, string>, key: string): string
  {
    if key in query then query[key] else ""
  }

  function QueryDefault(query: map<string, string>, key: string, defaultValue: string): (r: string)
    ensures Query(query, key) == "" ==> r == defaultValue
    ensures Query(query, key) != "" ==> r == Query(query, key)
  {
    var value := Query(query, key);
    if value == "" then defaultValue else value
  }

  /** The default shows through exactly for an absent or empty parameter. */
  lemma QueryDefaultCases(query: map<string, string>, key: string, defaultValue: string)
    ensures (key !in query || query[key] == "") ==> QueryDefault(query, key, defaultValue) == defaultValue
    ensures key in query && query[key] != "" ==> QueryDefault(query, key, defaultValue) == query[key]
    ensures QueryDefault(query, key, defaultValue) == "" ==> defaultValue == ""
  {
  }

  // ------------------------------------------------------- Bind and validate

  /** Bind: the body parser's error, else the validator's error, else none. */
  function Bind(parseErr: Option<GoError>, validateErr: Option<GoError>): (r: Option<GoError>)
    ensures parseErr.Some? ==> r == parseErr
    ensures parseErr.None? ==> r == validateErr
  {
    if parseErr.Some? then parseErr else validateErr
  }

  /**
   * BindAndValidate: a Bind error gives 400 "Invalid request body" wrapping
   * it; then the value is validated again (`revalidateErr`), and an error
   * there gives 422 "Validation failed" wrapping it.  Because the
   * validator is deterministic, the second verdict is the one Bind saw, and
   * then every failure is the 400 one: the 422 branch is never reached.
   */
  method BindAndValidate(parseErr: Option<GoError>, validateErr: Option<GoError>, revalidateErr: Option<GoError>)
    returns (r: Option<AppError>)
    ensures Bind(parseErr, validateErr).Some? ==>
      r.Some? && r.value.message == "Invalid request body" && r.value.statusCode == 400
      && r.value.err == Bind(parseErr, validateErr)
    ensures Bind(parseErr, validateErr).None? && revalidateErr.Some? ==>
      r.Some? && r.value.message == "Validation failed" && r.value.statusCode == 422
      && r.value.err == revalidateErr
    ensures Bind(parseErr, validateErr).None? && revalidateErr.None? ==> r.None?
    ensures revalidateErr == validateErr ==> (r.Some? <==> parseErr.Some? || validateErr.Some?)
    ensures revalidateErr == validateErr && r.Some? ==> r.value.statusCode == 400
  {
    var err := Bind(parseErr, validateErr);
    if err.Some? {
      var e := NewAppError("Invalid request body", 400);
      return Some(WithError(e, err.value));
    }
    if revalidateErr.Some? {
      var e := NewAppError("Validation failed", 422);
      return Some(WithError(e, revalidateErr.value));
    }
    return None;
  }
}
