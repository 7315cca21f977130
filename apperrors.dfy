/**
 * The structured application error of pkg/forge/errors.go.
 *
 * An `AppError` is a value (Go copies the struct in every builder), but
 * its `Details` map is a Go map, shared by reference between a value and
 * its copies.  It is therefore a heap object here, so that a write through
 * one copy is visible through every other.
 */
module AppErrors {
  import opened Wrappers
  import opened Str

  /** One entry of the validator middleware's per-field report. */
  datatype FieldIssue = FieldIssue(field: string, message: string, value: string, tag: string)

  /** A value stored under a key of a Details map or of a request's locals (Go: interface{}). */
  datatype Value =
    | Text(s: string)
    | Issues(entries: seq<FieldIssue>)
    | Claims(claims: map<string, Value>)
    | Nil
    | Opaque(kind: string)

  /** A Go `map[string]interface{}`, shared by every copy that holds it. */
  class Details {
    var entries: map<string, Value>

    constructor (m: map<string, Value>)
      ensures entries == m
    {
      entries := m;
    }
  }

  /** The error values the modelled code produces or inspects. */
  datatype GoError =
    | App(app: AppError)                        // a *AppError
    | Fiber(code: int, message: string)         // a *fiber.Error
    | Plain(message: string)                    // any other error without a wrapped cause
    | Wrapped(message: string, inner: GoError)  // fmt.Errorf("...%w", inner)

  datatype AppError = AppError(
    message: string,
    statusCode: int,
    code: string,
    details: Details?,
    err: Option<GoError>)

  /** The text of `err.Error()`. */
  function ErrorText(e: GoError): string
    decreases e, 1
  {
    match e
    case App(a) => AppErrorText(a)
    case Fiber(_, m) => m
    case Plain(m) => m
    case Wrapped(m, _) => m
  }

  /** AppError.Error: the message, followed by ": " and the cause's text when there is one. */
  function AppErrorText(a: AppError): (r: string)
    decreases a, 0
    ensures a.err.None? ==> r == a.message
    ensures a.err.Some? ==> HasPrefix(r, a.message + ": ") && r[|a.message| + 2..] == ErrorText(a.err.value)
  {
    match a.err
    case None => a.message
    case Some(inner) => a.message + ": " + ErrorText(inner)
  }

  /** NewAppError: the message and status, no code, no cause and a fresh empty Details map. */
  method NewAppError(message: string, statusCode: int) returns (r: AppError)
    ensures r.message == message && r.statusCode == statusCode
    ensures r.code == "" && r.err == None
    ensures r.details != null && fresh(r.details) && r.details.entries == map[]
  {
    var d := new Details(map[]);
    r := AppError(message, statusCode, "", d, None);
  }

  /** WithError: a copy whose cause is `err`; nothing else differs. */
  function WithError(e: AppError, err: GoError): (r: AppError)
    ensures r.err == Some(err)
    ensures r.message == e.message && r.statusCode == e.statusCode && r.code == e.code && r.details == e.details
  {
    e.(err := Some(err))
  }

  /** WithDetails: a copy holding the given Details map; nothing else differs. */
  function WithDetails(e: AppError, d: Details?): (r: AppError)
    ensures r.details == d
    ensures r.message == e.message && r.statusCode == e.statusCode && r.code == e.code && r.err == e.err
  {
    e.(details := d)
  }

  /** WithCode: a copy carrying the machine-readable code; nothing else differs. */
  function WithCode(e: AppError, code: string): (r: AppError)
    ensures r.code == code
    ensures r.message == e.message && r.statusCode == e.statusCode && r.details == e.details && r.err == e.err
  {
    e.(code := code)
  }

  /**
   * WithDetail: the copy shares the receiver's Details map, so when the
   * receiver has one, the write lands in the receiver's map as well.
   * Only a receiver without a map gets a fresh one.
   */
  method WithDetail(e: AppError, key: string, value: Value) returns (r: AppError)
    modifies e.details
    ensures r.message == e.message && r.statusCode == e.statusCode && r.code == e.code && r.err == e.err
    ensures r.details != null
    ensures e.details != null ==> r.details == e.details && r.details.entries == old(e.details.entries)[key := value]
    ensures e.details == null ==> fresh(r.details) && r.details.entries == map[key := value]
  {
    var d := e.details;
    if d == null {
      d := new Details(map[]);
    }
    d.entries := d.entries[key := value];
    r := e.(details := d);
  }

  /** The package-level sentinel errors, each with its own Details map. */
  datatype Catalog = Catalog(
    notFound: AppError,
    unauthorized: AppError,
    forbidden: AppError,
    badRequest: AppError,
    internal: AppError,
    validation: AppError)
  {
    predicate Valid()
    {
      && Sentinel(notFound, "not found", 404)
      && Sentinel(unauthorized, "unauthorized", 401)
      && Sentinel(forbidden, "forbidden", 403)
      && Sentinel(badRequest, "bad request", 400)
      && Sentinel(internal, "internal server error", 500)
      && Sentinel(validation, "validation error", 400)
    }
  }

  predicate Sentinel(e: AppError, message: string, status: int)
  {
    e.message == message && e.statusCode == status && e.code == "" && e.err == None && e.details != null
  }

  /** The initialisation of the sentinel variables. */
  method NewCatalog() returns (c: Catalog)
    ensures c.Valid()
  {
    var nf := NewAppError("not found", 404);
    var un := NewAppError("unauthorized", 401);
    var fb := NewAppError("forbidden", 403);
    var br := NewAppError("bad request", 400);
    var ie := NewAppError("internal server error", 500);
    var ve := NewAppError("validation error", 400);
    c := Catalog(nf, un, fb, br, ie, ve);
  }

  /** What errors.As(err, &appErr) finds: the first *AppError along the wrap chain. */
  function FindAppError(err: GoError): (r: Option<AppError>)
    ensures err.App? ==> r == Some(err.app)
    ensures err.Fiber? || err.Plain? ==> r == None
  {
    match err
    case App(a) => Some(a)
    case Wrapped(_, inner) => FindAppError(inner)
    case _ => None
  }

  /** AsAppError: the AppError the error holds, or the internal-error sentinel wrapping it. */
  function AsAppError(cat: Catalog, err: GoError): (r: AppError)
    requires cat.Valid()
    ensures err.App? ==> r == err.app
    ensures FindAppError(err).None? ==> r == WithError(cat.internal, err) && r.statusCode == 500 && r.message == "internal server error"
  {
    match FindAppError(err)
    case Some(a) => a
    case None => WithError(cat.internal, err)
  }

  /** HandleError: the response status is the AppError's, and the body is that AppError. */
  function HandleError(cat: Catalog, err: GoError): (r: (int, AppError))
    requires cat.Valid()
    ensures r.1 == AsAppError(cat, err) && r.0 == r.1.statusCode
    ensures FindAppError(err).None? ==> r.0 == 500
  {
    var a := AsAppError(cat, err);
    (a.statusCode, a)
  }

  /** ValidationError: the validation sentinel with a fresh Details map holding each field's message. */
  method ValidationError(cat: Catalog, errors: map<string, string>) returns (r: AppError)
    requires cat.Valid()
    ensures r.message == "validation error" && r.statusCode == 400 && r.code == "" && r.err == None
    ensures r.details != null && fresh(r.details)
    ensures r.details.entries.Keys == errors.Keys
    ensures forall f :: f in errors ==> r.details.entries[f] == Text(errors[f])
  {
    var d := new Details(map[]);
    var todo := errors.Keys;
    while todo != {}
      invariant todo <= errors.Keys
      invariant d.entries.Keys == errors.Keys - todo
      invariant forall f :: f in d.entries ==> d.entries[f] == Text(errors[f])
      decreases todo
    {
      var f :| f in todo;
      d.entries := d.entries[f := Text(errors[f])];
      todo := todo - {f};
    }
    r := WithDetails(cat.validation, d);
  }

  /** NotFoundError: the sentinel itself for an empty entity, else a new "<entity> not found" with status 404. */
  method NotFoundError(cat: Catalog, entity: string) returns (r: AppError)
    requires cat.Valid()
    ensures entity == "" ==> r == cat.notFound
    ensures entity != "" ==> r.message == entity + " not found" && r.statusCode == 404 && r.code == "" && r.err == None
    ensures entity != "" ==> r.details != null && fresh(r.details) && r.details.entries == map[]
  {
    r := cat.notFound;
    if entity != "" {
      r := NewAppError(entity + " not found", 404);
    }
  }

  /** The leak through WithDetail: a detail added to a copy of a sentinel appears in the sentinel's own map. */
  method SentinelLeak(cat: Catalog, key: string, value: Value) returns (r: AppError)
    requires cat.Valid()
    modifies cat.internal.details
    ensures r.details == cat.internal.details
    ensures key in cat.internal.details.entries && cat.internal.details.entries[key] == value
  {
    r := WithDetail(cat.internal, key, value);
  }
}
