# A Dafny model of the Flux Go web framework's core

Flux is a Go web framework built on fiber. A controller is a Go type whose
`Handle*` methods become routes by a naming convention. This project models
the parts of the framework that make up that convention and the logic
around it, and proves what they promise:

- **Routing** (`pkg/flux/app.go`). The application's route-name convention
  turns a method such as `HandleGetUserById` into an HTTP verb and a path
  under the controller's base path. It also covers the generated route
  descriptions, the body-limit parser and the default error handler.
  `RegisterController` is a method that adds one route-table entry and one
  server binding per `Handle*` method.
- **Controllers** (`pkg/flux/controller.go`). The route table is keyed
  `METHOD:path` with last write winning. Middleware lists are appended in
  order. The second, slash-joined naming convention goes through
  `splitCamelCase`. The middleware onion runs the first-declared
  middleware outermost. A handler is a function over a request state that
  carries a trace, so call order can be stated.
- **OpenAPI** (`pkg/forge/openapi.go`). Schema Objects (OpenAPI
  Specification 3.0.0, section 4.7.24) are generated from an inductive
  description of a Go type. The verb annotations are read off method
  names, and the document's paths are assembled from them.
- **Errors** (`pkg/forge/errors.go`). `AppError` has copy-on-write
  builders. Its `Details` map is a heap object, so `WithDetail`'s write
  into the shared map is visible.
- **Middleware** (`pkg/forge/middleware/middleware.go`). This covers the
  option setters and the sliding-window rate limiter with integer time.
  It also covers the validator's error report, CORS and the bearer-token
  guard.
- **Context** (`pkg/flux/context.go`). Validation reports and their text,
  the status rule of `Context.Error`, content negotiation, query defaults
  and the bind-then-validate error mapping.
- **Logger** (`pkg/flux/logger/logger.go`). Level names, parsing and the
  level filter; colouring; construction defaults; and field-scoped
  copies.
- **Database** (`pkg/flux/database.go`). `NewDatabase`'s defaults and
  driver choice. The migration manager's `Migrate` and `Rollback` run over
  an abstract store of applied names.
- **Generators** (`cmd/flux/scaffold.go`, `cmd/flux/newcontroller.go`).
  Name normalisation, the splices into `routes/main.go` and `main.go`
  (each splice is idempotent; updating `main.go` a second time changes
  nothing when the file already had a ")", but places the import when it
  had none), the module name read from `go.mod`, schema type names and the
  sorted Markdown API documentation.
- **Microservices** (`pkg/flux/microservice.go`). The route builder and its
  one-time `Setup`, and the default configuration. Also the project
  generator's directory list, `config.yaml`, `docker-compose.yml`,
  `Dockerfile` and `go.mod`.
- **Hot reload** (`pkg/forge/hot_reload.go`). The reloader's path defaults,
  the directories it walks into the file watcher, the change-event filter
  and the temporary binary's name.

Shared pieces: `Wrappers` (Option and Result), `Str` (the ASCII string
functions standing for Go's `strings` and `fmt` calls) and `Sorting` (Go's
`sort.Strings` and the sorted keys of a map).

Each operation that changes state in Go is a method on a class: a
controller, route, router, application, rate limiter, migration manager,
database configuration, logger, microservice or hot reloader. Each such
method is proved against a specification function. The pure logic is
functions and lemmas.

## Model

| member | source | states |
|---|---|---|
| AppErrors.Details.constructor | pkg/forge/errors.go:30 | a Details map holds exactly the given entries |
| AppErrors.AppErrorText | pkg/forge/errors.go:34-39 | the message alone without a cause; otherwise the message, ": " and the cause's text |
| AppErrors.NewAppError | pkg/forge/errors.go:26-32 | message and status as given, empty code, no cause, a fresh empty Details map |
| AppErrors.WithError | pkg/forge/errors.go:41-45 | the copy's cause is the argument; message, status, code and Details map are the receiver's |
| AppErrors.WithDetails | pkg/forge/errors.go:47-51 | the copy holds the given Details map; every other field is the receiver's |
| AppErrors.WithCode | pkg/forge/errors.go:62-66 | the copy carries the code; every other field is the receiver's |
| AppErrors.WithDetail | pkg/forge/errors.go:53-60 | the copy shares the receiver's Details map and that map gains key→value; with no map, a fresh one holding only key→value |
| AppErrors.NewCatalog | pkg/forge/errors.go:9-16 | the six sentinels have their messages and statuses (404, 401, 403, 400, 500, 400), no code, no cause |
| AppErrors.FindAppError | pkg/forge/errors.go:70 | errors.As finds an AppError argument itself and nothing in a fiber or plain error |
| AppErrors.AsAppError | pkg/forge/errors.go:68-74 | an AppError is returned as is; an error holding none becomes the internal-error sentinel wrapping it, status 500 |
| AppErrors.HandleError | pkg/forge/errors.go:92-95 | the response status is AsAppError's status code and the body is that AppError; 500 for an error holding no AppError |
| AppErrors.ValidationError | pkg/forge/errors.go:76-82 | the validation sentinel's message and status 400 with a fresh Details map holding exactly each field's message |
| AppErrors.NotFoundError | pkg/forge/errors.go:84-90 | the not-found sentinel itself for an empty entity; else "<entity> not found", status 404 and a fresh empty map |
| AppErrors.SentinelLeak | pkg/forge/errors.go:53-60 | WithDetail on the internal-error sentinel writes the key into the sentinel's own Details map |
| FluxContext.MessagesIn | pkg/flux/context.go:36-39 | one message per visited key: the i-th message is the message of the i-th key visited |
| FluxContext.ValidationErrorsText | pkg/flux/context.go:31-41 | "" for an empty map; otherwise the messages of some enumeration visiting every key once, joined by "; " |
| FluxContext.ValidationErrorsSingle | pkg/flux/context.go:31-41 | whatever the map order, the text of a one-entry map is its message |
| FluxContext.LowerFirst | pkg/flux/context.go:126-130 | same length; an initial 'A'..'Z' becomes lower case, the rest is unchanged, a name without one is returned as is |
| FluxContext.LowerFirstIdempotent | pkg/flux/context.go:126-130 | lower-casing the first letter twice is doing it once |
| FluxContext.DetailMessageNamesField | pkg/flux/context.go:132-145 | every per-tag message starts with "The " and the field name |
| FluxContext.DetailsUpToKeys | pkg/flux/context.go:125-146 | a field is in the report exactly when some field error names it (after lower-casing) |
| FluxContext.DetailsUpToLastWins | pkg/flux/context.go:132-146 | a reported field carries the message of the last error naming it |
| FluxContext.ValidateWithDetails | pkg/flux/context.go:121-152 | nil for valid input; {"_error": text} for a non-field error; else the report the loop builds, field by field |
| FluxContext.ContextError | pkg/flux/context.go:235-244 | an AppError answers with its own status only when its code is non-empty, else 500; any other error gives 500 and a new "Internal Server Error" wrapping it |
| FluxContext.NegotiateCases | pkg/flux/context.go:83-98 | XML iff the Accept header is application/xml or text/xml; text iff text/plain with string data; JSON in every other case |
| FluxContext.QueryDefault | pkg/flux/context.go:185-191 | the default when the query value is "", else the value |
| FluxContext.QueryDefaultCases | pkg/flux/context.go:185-191 | the default exactly for an absent or empty parameter; an empty result needs an empty default |
| FluxContext.Bind | pkg/flux/context.go:101-113 | the body parser's error first, else the validator's error |
| FluxContext.BindAndValidate | pkg/flux/context.go:164-172 | a Bind error gives 400 "Invalid request body" wrapping it; a second-validation error gives 422; with a deterministic validator every failure is the 400 one and the 422 branch is unreachable |
| Controllers.BuildChain | pkg/flux/controller.go:139-148 | the reverse loop builds m1(m2(…mn(final))); with no middleware the final handler itself |
| Controllers.ComposeAppend | pkg/flux/controller.go:139-148 | appending middleware nests it inside the existing ones |
| Controllers.OnionTrace | pkg/flux/controller.go:139-148 | every traced middleware enters in declaration order and exits in reverse order around the final handler |
| Controllers.OnionTwo | pkg/flux/controller.go:139-148 | with [A, B] the trace is A-before, B-before, final, B-after, A-after |
| Controllers.ShortCircuit | pkg/flux/controller.go:139-148 | a middleware that answers without calling next hides every middleware and handler inside it |
| Controllers.SplitCamelParts | pkg/flux/controller.go:169-186 | the parts concatenate back to the input, none is empty, a part begins exactly at each capital after position 0; empty input gives no parts |
| Controllers.CamelPartsUnique | pkg/flux/controller.go:169-186 | any split with those properties is the split |
| Controllers.SplitCamelWord | pkg/flux/controller.go:169-186 | a word with no capital after its first character is a single part |
| Controllers.SplitCamelAppend | pkg/flux/controller.go:169-186 | text starting with a capital, after non-empty text, splits on its own |
| Controllers.SplitCamelCons | pkg/flux/controller.go:169-186 | a leading word followed by capitalised text is the first part |
| Controllers.SplitCamelCase | pkg/flux/controller.go:169-186 | the builder loop yields exactly the split |
| Controllers.MethodRouteOfWords | pkg/flux/controller.go:92-104 | after "Handle", the upper-cased first word is the verb and the remaining words, slash-joined and lower-cased, are the path |
| Controllers.MethodRouteVerbOnly | pkg/flux/controller.go:99-104 | a single word gives that verb and an empty path |
| Controllers.MethodRouteUserById | pkg/flux/controller.go:92-104 | HandleGetUserById is GET "/user/by/id" under this convention |
| Controllers.MethodRouteBareHandle | pkg/flux/controller.go:92-104 | a bare "Handle" gives an empty verb and an empty path |
| Controllers.RouteLog.constructor | pkg/flux/app.go:317 | the application's route log starts empty |
| Controllers.RouteLog.Add | pkg/flux/controller.go:71 | one Add call appends one entry and keeps the earlier ones |
| Controllers.Router.constructor | pkg/flux/controller.go:151-166 | a router starts with no bindings |
| Controllers.Router.Bind | pkg/flux/controller.go:151-166 | one of the seven verbs appends a binding; any other verb binds nothing |
| Controllers.Route.constructor | pkg/flux/controller.go:58-63 | a route holds the given name, verb, path, description and handler, with no request or response model |
| Controllers.Route.SetName | pkg/flux/controller.go:77-80 | changes only the name and returns the same route |
| Controllers.Route.SetRequestBody | pkg/flux/controller.go:82-85 | changes only the request model and returns the same route |
| Controllers.Route.SetResponse | pkg/flux/controller.go:87-90 | changes only the response model and returns the same route |
| Controllers.Controller.constructor | pkg/flux/controller.go:12-17 | a controller starts with no middleware, no name and no routes |
| Controllers.Controller.Name | pkg/flux/controller.go:200-210 | the set name when there is one, else the embedded type's name "Controller" |
| Controllers.Controller.Use | pkg/flux/controller.go:34-36 | appends the middleware in order; routes and name unchanged |
| Controllers.Controller.SetName | pkg/flux/controller.go:196-198 | changes only the name |
| Controllers.Controller.RegisterRoute | pkg/flux/controller.go:53-75 | a fresh route with the upper-cased verb stored under "METHOD:path" replacing any earlier one (map size unchanged then), one log entry when there is an application, and that route returned |
| Controllers.Controller.RegisterMethodRoute | pkg/flux/controller.go:92-167 | the derived route is stored under its key even for a verb the router lacks, logged once, and bound with the controller's middleware read at request time only for the seven verbs |
| Controllers.Controller.RegisterRoutes | pkg/flux/controller.go:39-51 | as written it reflects on the *Controller receiver, so the route map, the router's bindings, the route log and the middleware are all unchanged |
| Controllers.ReflectedMethods | pkg/flux/controller.go:44-45 | reflecting on *Controller lists Controller's ten exported methods, in lexical order |
| Controllers.ReflectedNoHandler | pkg/flux/controller.go:44-49 | no method of *Controller is named Handle…, so the list adds no route key |
| Controllers.HandleKeysNone | pkg/flux/controller.go:46-49 | a method list without Handle… names adds no route key |
| Controllers.Controller.RegisterMethods | pkg/flux/controller.go:43-50 | over a given method list, the route map gains exactly the keys of the methods named Handle…, and each added key holds the route of the last such method with that key (`Controllers.Registered`: its name, verb and path, an empty description, no handler and no models). Other keys keep their routes. The route log (when there is one) gains one entry per Handle… method, in method order. The router gains one binding per Handle… method whose verb it knows, in order. Middleware and name are unchanged, and with no Handle… method nothing changes at all |
| Controllers.Controller.RegisterNext | pkg/flux/controller.go:45-49 | one turn of the loop extends the registered state (`Controllers.Controller.Registering`) from the methods before i to those up to i |
| Controllers.Controller.RegisterIfHandle | pkg/flux/controller.go:47-49 | a Handle… method stores its registered route under its key and nothing else in the map, adds its log entry and its binding; any other method changes nothing |
| Controllers.HandleNames | pkg/flux/controller.go:45-49 | the key → method-name map has exactly the keys the Handle… methods give |
| Controllers.HandleNamesKeys | pkg/flux/controller.go:93-117 | every stored name is a Handle… name whose own key is the key it is stored under |
| Controllers.HandleNamesLast | pkg/flux/controller.go:117 | a key is held by the last Handle… method with that key: a later method with the same key overwrites an earlier one |
| Controllers.HandleNoneEmpty | pkg/flux/controller.go:46-49 | without Handle… methods no log entry and no binding is added |
| Controllers.HandleBindingsLogged | pkg/flux/controller.go:120-166 | every binding uses one of the seven router verbs and matches a log entry with the same verb and path |
| Controllers.HandleKeysSnoc | pkg/flux/controller.go:45-49 | one more method adds its key and name when it is a Handle… method and nothing otherwise |
| Controllers.HandleLogSnoc | pkg/flux/controller.go:45-49 | one more method appends its own log entries and bindings after the earlier ones |
| Controllers.AllRegisteredStore | pkg/flux/controller.go:117 | storing one more route keeps every other key's registered route |
| Controllers.RoutesStep | pkg/flux/controller.go:45-49 | after one more method (a Handle… method adding its key and registered route, any other adding nothing), the key set is still the original keys plus the added ones, the untouched original routes are still in place, and every added key holds its registered route |
| Controllers.Controller.GetRouteByName | pkg/flux/controller.go:216-223 | a route of the map with that name, and nil exactly when no route has it |
| Controllers.Controller.Group | pkg/flux/controller.go:225-230 | a new group with the prefix, starting from the controller's middleware |
| Controllers.ControllerGroup.constructor | pkg/flux/controller.go:226-229 | a group holds its prefix and middleware, no controllers and no name |
| Controllers.ControllerGroup.Use | pkg/flux/controller.go:239-242 | appends in order, keeps existing entries and returns the same group |
| Controllers.ControllerGroup.Add | pkg/flux/controller.go:245-253 | appends the controller; a *Controller gets the group's middleware after its own |
| Controllers.ControllerGroup.SetName | pkg/flux/controller.go:255-258 | changes only the name and returns the same group |
| Controllers.GroupMiddlewareInnermost | pkg/flux/controller.go:248-250 | after Add, the controller's own middleware wraps the group's, which wraps the handler |
| Database.WithDefaults | pkg/flux/database.go:62-72 | SlowThreshold 0 becomes 200 ms, an empty Charset "utf8mb4", an empty Timezone "Local"; every other field is kept |
| Database.WithDefaultsIdempotent | pkg/flux/database.go:40-72 | filling the defaults twice is filling them once, and DefaultDatabaseConfig needs none |
| Database.DatabaseConfig.constructor | pkg/flux/database.go:21-37 | a configuration holds exactly the given field values |
| Database.DatabaseConfig.FillDefaults | pkg/flux/database.go:62-72 | the caller's configuration becomes WithDefaults of what it was |
| Database.SslModeOrDefault | pkg/flux/database.go:110-113 | never empty, and the configured mode when there is one |
| Database.DialectFor | pkg/flux/database.go:101-124 | an error exactly for a driver other than sqlite, mysql, postgres or sqlserver, reading "unsupported database driver: <d>"; sqlite opens the Name |
| Database.PostgresSslMode | pkg/flux/database.go:109-117 | the Postgres connection string carries " sslmode=<mode> ", "disable" when none is configured |
| Database.GormLogLevel | pkg/flux/database.go:82-85 | never 0, and the configured level when it is not 0 |
| Database.Open | pkg/flux/database.go:74-124 | a sqlite directory error comes first; then an error exactly for an unsupported driver; on success the switch's dialector, the slow threshold and a non-zero log level |
| Database.NewDatabase | pkg/flux/database.go:57-124 | a nil configuration becomes a fresh default one; otherwise the caller's own configuration receives the defaults; the outcome is Open of the filled configuration |
| Database.Pending | pkg/flux/database.go:323-329 | at most one name per migration, none of them already applied |
| Database.StopAt | pkg/flux/database.go:328-341 | the stopping index is within the migration list |
| Database.RunUpsOutcome | pkg/flux/database.go:316-345 | Migrate appends exactly the pending names before the migration it stops at, fails exactly when it stops early, and the error names the pending migration whose Up failed |
| Database.MigrateSucceeded | pkg/flux/database.go:328-347 | on success every pending name was appended, in declaration order |
| Database.PendingCovers | pkg/flux/database.go:323-329 | every registered name was applied at the start or is pending |
| Database.RunUpsAllDone | pkg/flux/database.go:328-329 | with every name applied Migrate runs nothing and succeeds |
| Database.MigrateTwice | pkg/flux/database.go:316-347 | after a successful Migrate a second Migrate applies nothing |
| Database.RegistryUpTo | pkg/flux/database.go:360-363 | every declared name is in the registry |
| Database.Newest | pkg/flux/database.go:354 | ORDER BY id DESC LIMIT steps: min(steps, rows) names, all from the store |
| Database.RemoveName | pkg/flux/database.go:380 | DELETE … WHERE name = ? removes every row with the name and keeps all others |
| Database.RemoveAbsent | pkg/flux/database.go:380 | deleting an absent name changes nothing |
| Database.RunDownsStep | pkg/flux/database.go:366-388 | one successful Down deletes the name's rows and the loop continues |
| Database.RollbackDropsNewest | pkg/flux/database.go:351-391 | with distinct names, the newest ones registered and every Down succeeding, Rollback(steps) removes exactly the steps newest rows |
| Database.RollbackUnknownNewest | pkg/flux/database.go:366-370 | an unregistered newest name aborts with "migration '<name>' not found" before any Down, store unchanged |
| Database.RunDownsShrinks | pkg/flux/database.go:366-388 | Rollback only ever removes rows |
| Database.PendingAll | pkg/flux/database.go:323-329 | with no name applied, every migration is pending |
| Database.MigrateAppendsAll | pkg/flux/database.go:316-347 | new names with succeeding Ups are all appended in declaration order |
| Database.MigrateThenRollback | pkg/flux/database.go:316-391 | Rollback(len(migrations)) after such a Migrate restores the store |
| Database.RollbackAppended | pkg/flux/database.go:351-391 | rolling back as many steps as names were appended leaves the earlier rows |
| Database.AppendedRegistered | pkg/flux/database.go:360-363 | the names Migrate appended all have a registered migration |
| Database.RegistryDownsSucceed | pkg/flux/database.go:360-363 | the registry holds only declared migrations |
| Database.RegistryDown | pkg/flux/database.go:360-363 | each registry entry is one of the declared migrations |
| Database.BuildRegistry | pkg/flux/database.go:360-363 | the loop builds the name-to-migration map, later declarations winning |
| Database.MigrationManager.constructor | pkg/flux/database.go:288-293 | a new manager has no migrations |
| Database.MigrationManager.AddMigration | pkg/flux/database.go:295-301 | one migration appended at the end; earlier ones unchanged |
| Database.MigrationManager.Migrate | pkg/flux/database.go:304-348 | table and query errors are reported with the store unchanged; otherwise the store and error are those of RunUps on the names read once at the start |
| Database.MigrationManager.Rollback | pkg/flux/database.go:351-391 | a query error is reported with the store unchanged; otherwise the outcome of RunDowns on the newest names (all of them for a negative step count) |
| Database.Database.constructor | pkg/flux/database.go:306-317 | the migrations table holds the given applied names, in insertion order |
| Database.NamesOf | pkg/flux/database.go:328-329 | the names of the migrations, one per migration, in declaration order |
| Database.UpsSucceed | pkg/flux/database.go:328-347 | when every Up succeeds, Migrate succeeds having appended every pending name |
| Logging.LevelString | pkg/flux/logger/logger.go:27-42 | "UNKNOWN" for every level outside the five named ones |
| Logging.ParseLevel | pkg/flux/logger/logger.go:44-59 | always one of the five named levels |
| Logging.ParseLevelString | pkg/flux/logger/logger.go:27-59 | parsing the name of each named level gives the level back |
| Logging.ParseLevelCaseInsensitive | pkg/flux/logger/logger.go:45 | upper- or lower-casing the text does not change the parsed level |
| Logging.ParseLevelUnknown | pkg/flux/logger/logger.go:56-57 | text naming no level parses as Info |
| Logging.EmitsMonotone | pkg/flux/logger/logger.go:182-185 | a logger that writes a level writes every higher level |
| Logging.EmitsOrder | pkg/flux/logger/logger.go:14-24 | with Debug < Info < Warn < Error < Fatal: Fatal is always written, Debug only by a Debug logger, Info by Debug and Info loggers |
| Logging.ColorCode | pkg/flux/logger/logger.go:221-235 | an escape sequence; the reset code exactly for an unnamed level |
| Logging.Colorize | pkg/flux/logger/logger.go:219-239 | the level's colour, then the text, then the reset code |
| Logging.ColorCodesDistinct | pkg/flux/logger/logger.go:222-232 | the five named levels have five different colours, none of them the reset code |
| Logging.DefaultConfig | pkg/flux/logger/logger.go:80-87 | Info, standard output, "2006-01-02 15:04:05", colours on |
| Logging.CopyFields | pkg/flux/logger/logger.go:113-116 | the copy loop yields the same map whatever the iteration order |
| Logging.MergeFields | pkg/flux/logger/logger.go:148-150 | the merge loop yields the fields with the argument winning on shared keys |
| Logging.Logger.constructor | pkg/flux/logger/logger.go:90-104 | a nil writer becomes standard output, an empty time format the default one; no fields; level and colouring as configured |
| Logging.Logger.Make | pkg/flux/logger/logger.go:118-124 | the struct literal holds every field as given |
| Logging.Logger.WithLevel | pkg/flux/logger/logger.go:112-125 | a fresh logger with the given level and the same fields, writer, format and colouring |
| Logging.Logger.WithField | pkg/flux/logger/logger.go:127-141 | a fresh logger whose fields are the receiver's plus key→value; everything else copied; the receiver untouched |
| Logging.Logger.WithFields | pkg/flux/logger/logger.go:143-159 | a fresh logger whose fields are the receiver's merged with the argument, the argument winning |
| Logging.DefaultLogger | pkg/flux/logger/logger.go:107-110 | New on DefaultConfig: Info, standard output, the default format, colours on, no fields |
| Logging.WithFieldsOfOne | pkg/flux/logger/logger.go:127-159 | WithFields with one entry gives the fields WithField gives |
| Middleware.ApplyOption | pkg/forge/middleware/middleware.go:28-81 | each option sets only its own field(s) of the configuration: the four Without options switch their feature off, WithCORSConfig, WithBodyLimit and WithTimeouts store their arguments, WithSecurityHeaders switches security headers on |
| Middleware.ApplyOptionIdempotent | pkg/forge/middleware/middleware.go:28-81 | applying an option twice has the effect of applying it once |
| Middleware.LimiterDefaults | pkg/forge/middleware/middleware.go:230-240 | a non-positive Max becomes 100, a non-positive window becomes one minute, a missing key function becomes the client IP; given values and the skip function are kept, so the result always has a positive limit and window |
| Middleware.LimiterDefaultsIdempotent | pkg/forge/middleware/middleware.go:230-240 | defaulting an already defaulted configuration changes nothing |
| Middleware.FirstNewerFrom | pkg/forge/middleware/middleware.go:309-317 | the scan result is 0 or the first bucket at or after the start that is newer than the cutoff; every bucket it passes over is at or before the cutoff |
| Middleware.WindowStart | pkg/forge/middleware/middleware.go:309-317 | the window start is an index into the bucket list (or 0) |
| Middleware.Prune | pkg/forge/middleware/middleware.go:319-321 | the pruned list is a suffix of the client's buckets |
| Middleware.PruneDropsOnlyExpired | pkg/forge/middleware/middleware.go:309-321 | only buckets at or before the cutoff are dropped; when all buckets are expired nothing is dropped; a changed list starts with a bucket newer than the cutoff |
| Middleware.PruneOrdered | pkg/forge/middleware/middleware.go:309-321 | pruning keeps the buckets in timestamp order |
| Middleware.PruneUnexpired | pkg/forge/middleware/middleware.go:309-321 | on buckets in timestamp order, pruning either leaves only buckets newer than the cutoff or leaves the list as it was |
| Middleware.TotalNonNegative | pkg/forge/middleware/middleware.go:323-326 | over well-formed buckets (each count at least one) the counted requests are at least the number of buckets |
| Middleware.RecordTotal | pkg/forge/middleware/middleware.go:337-346 | recording a request adds exactly one to the count, either by bumping the last bucket or by appending a new bucket of count one |
| Middleware.RecordOrdered | pkg/forge/middleware/middleware.go:337-346 | recording at a time no earlier than any bucket keeps the buckets ordered and no later than that time |
| Middleware.FindWindowStart | pkg/forge/middleware/middleware.go:309-317 | the loop that looks for the first bucket newer than the cutoff computes the window start |
| Middleware.SumCounts | pkg/forge/middleware/middleware.go:323-326 | the loop that sums the bucket counts computes the total |
| Middleware.AdmittedRemaining | pkg/forge/middleware/middleware.go:348-351 | an admitted request carries its remaining allowance and the limit as headers |
| Middleware.RateLimiter.constructor | pkg/forge/middleware/middleware.go:229-258 | the limiter starts with the defaulted configuration and no clients |
| Middleware.RateLimiter.Handle | pkg/forge/middleware/middleware.go:278-356 | a skipped request goes straight to next with no bookkeeping; otherwise the client's buckets are pruned and counted, a client at its limit is refused with 429 "Rate limit exceeded" and the limit headers while its pruned buckets are kept, and any other request is recorded and passed to next with Max - count - 1 remaining |
| Middleware.CurrentWindow | pkg/forge/middleware/middleware.go:309-326 | the pruned buckets and their total are those of the specification functions |
| Middleware.Admit | pkg/forge/middleware/middleware.go:337-346 | the bucket update is the recorded list |
| Middleware.ValidatorMessageGeneric | pkg/forge/middleware/middleware.go:421-445 | a tag outside the eleven known ones gets the generic message, which starts "Validation failed on '" followed by the tag; no known tag's message starts that way |
| Middleware.BuildIssues | pkg/forge/middleware/middleware.go:413-453 | one issue per field error, in order, each built from that field error |
| Middleware.ValidatorHandle | pkg/forge/middleware/middleware.go:396-460 | given what the validator reported: no body, no validator or a passing body go to next; a non field-level error gives 422 "Validation failed" wrapping that error; field errors give 422 "Validation Error" whose "validation" detail lists one issue per field error |
| Middleware.Validator | pkg/forge/middleware/middleware.go:393-460 | as written it validates the raw body bytes, so with a body and a validator every request fails with 422 "Validation failed" wrapping the validator's invalid-argument error and next never runs; without either, next runs |
| Middleware.CorsBehaviour | pkg/forge/middleware/middleware.go:155-169 | every request gets the three Access-Control headers from the configuration; an OPTIONS request ends with status 204 whatever next does; any other request reaches next with the headers set |
| Middleware.RequireAuthHandle | pkg/forge/middleware/middleware.go:126-150 | a missing Authorization header gives the shared unauthorized error; no auth service gives the shared internal error with its "message" detail set; a rejected token gives unauthorized wrapping the validation error; an accepted token stores the claims and calls next |
| OpenApi.FieldName | pkg/forge/openapi.go:300-303 | the property name is the json tag text before its first comma when that is non-empty, else the Go field name; it is empty only for a field with an empty Go name |
| OpenApi.SchemaOf | pkg/forge/openapi.go:272-332 | strings, the five signed integer kinds, the two float kinds and bool get the JSON types "string", "integer", "number" and "boolean"; a struct gives an "object"; slices and arrays give an "array" of the element's schema; maps give an "object" whose additionalProperties is the value's schema; a pointer gives its element's schema |
| OpenApi.FieldsSchemaProperties | pkg/forge/openapi.go:293-312 | a name is a property of a struct schema exactly when some field not tagged "-" and with a schema carries that name |
| OpenApi.FieldsSchemaRequired | pkg/forge/openapi.go:306-310 | a name is required exactly when some included field with that name lacks "omitempty"; every required name is a property; the required list is no longer than the field list |
| OpenApi.FieldsSchemaLastWins | pkg/forge/openapi.go:305-307 | when two included fields share a name, the property holds the schema of the later one |
| OpenApi.SchemaOfDescribed | pkg/forge/openapi.go:277-331 | the schema is nil exactly for the kinds the generator does not describe (unsigned integers, complex numbers, channels, functions, interfaces and the like), at any depth of pointers |
| OpenApi.GenerateSchemaFromType | pkg/forge/openapi.go:272-275 | a nil type gives a nil schema; any other type gives its schema |
| OpenApi.GenerateSchema | pkg/forge/openapi.go:277-332 | the recursive generator with its loop over struct fields computes the schema of the type |
| OpenApi.AnnotationsUpTo | pkg/forge/openapi.go:100-108 | every annotation found is one of the verbs Get, Post, Put, Delete and Patch and prefixes the method name; none is found exactly when no verb looked at prefixes the name |
| OpenApi.GetMethodAnnotations | pkg/forge/openapi.go:100-108 | the loop over the five verbs collects the verbs that prefix the method name, in order |
| OpenApi.DocVerbsExclusive | pkg/forge/openapi.go:102 | no method name starts with two different verbs |
| OpenApi.AtMostOneAnnotation | pkg/forge/openapi.go:100-108 | a method name yields at most one annotation |
| OpenApi.FirstUpper | pkg/forge/openapi.go:116-122 | a non-empty result is the upper-cased form of some annotation, and of the first one when that is non-empty |
| OpenApi.GetHTTPMethodFromAnnotations | pkg/forge/openapi.go:110-123 | the loop computes the document verb of the method |
| OpenApi.HttpMethodShape | pkg/forge/openapi.go:110-123 | the document verb is "" or one of GET, POST, PUT, DELETE and PATCH, and it is non-empty exactly for an exported method whose name starts with one of the five verbs |
| OpenApi.HandleMethodsSkipped | pkg/forge/openapi.go:110-123 | a method named "Handle…" never gets a document verb, so route handlers do not appear in the document |
| OpenApi.RequestType | pkg/forge/openapi.go:230-236 | a request type exists exactly when the method type has at least three inputs (receiver, context, request) |
| OpenApi.OperationPath | pkg/forge/openapi.go:163 | the operation path starts with "/", the lower-cased type name and "/" |
| OpenApi.AddOperation | pkg/forge/openapi.go:157-222 | one pass of the method loop: without a verb the paths are unchanged, else the operation goes into its verb's slot of its path's item |
| OpenApi.AddController | pkg/forge/openapi.go:155-223 | the loop over one controller's methods adds each method's operation in turn |
| OpenApi.GenerateOpenAPI | pkg/forge/openapi.go:126-227 | the document has version "3.0.0", the application's title, description and version, no component schemas, exactly the bearerAuth HTTP bearer JWT security scheme, and the paths of all controllers' methods |
| OpenApi.SetOpSlots | pkg/forge/openapi.go:209-220 | storing an operation touches only its verb's slot, and a later operation for the same slot replaces an earlier one |
| OpenApi.OperationForGood | pkg/forge/openapi.go:166-201 | every operation has the "200" response with the success/data object schema, and a request body only for POST, PUT or PATCH |
| OpenApi.AddMethodsGood | pkg/forge/openapi.go:155-223 | adding a controller's methods keeps every operation in the map well-formed |
| OpenApi.PathsForGood | pkg/forge/openapi.go:153-224 | every operation in a generated document is well-formed |
| OpenApi.MethodPathsSpec | pkg/forge/openapi.go:157-163 | a path is contributed by a controller exactly when one of its methods has a document verb and that path |
| OpenApi.AddMethodsKeys | pkg/forge/openapi.go:155-223 | the method loop adds exactly the contributed paths to the map and removes none |
| OpenApi.PathsForKeys | pkg/forge/openapi.go:153-224 | the document's paths are exactly the paths contributed by all controllers |
| OpenApi.DocumentPathsSpec | pkg/forge/openapi.go:153-224 | a path is in the document exactly when some controller has a method with a document verb at that path |
| OpenApi.HandleControllerAddsNothing | pkg/forge/openapi.go:157-160 | a controller whose methods are all "Handle…" adds nothing to the document |
| OpenApi.AddMethodsUnchanged | pkg/forge/openapi.go:157-160 | methods without a document verb leave the paths unchanged |
| Routing.FirstPrefix | pkg/flux/app.go:418-424 | the verb found is one of the list and prefixes the action name; none is found exactly when no verb prefixes it |
| Routing.FirstPrefixEarliest | pkg/flux/app.go:418-424 | the verb found is the earliest of the list that prefixes the action name: no verb before it does |
| Routing.MarkCapitals | pkg/flux/app.go:428-434 | the builder loop puts the separator before every capital after the first character and lower-cases each character when asked, as the specification function does |
| Routing.CaseWord | pkg/flux/app.go:433 | case mapping keeps a word's length |
| Routing.CaseAll | pkg/flux/app.go:433 | case mapping applies to every word and keeps their number |
| Routing.MarkCapsJoinsWords | pkg/flux/app.go:428-434 | marking capitals is the same as splitting the action into camel-case words and joining them (lower-cased for paths) with the separator |
| Routing.MarkCapsLength | pkg/flux/app.go:428-434 | marking capitals never shortens the text |
| Routing.StripVerb | pkg/flux/app.go:414-424 | the verb loop finds the first verb prefixing the action name and what follows it |
| Routing.ParseRouteFromMethodName | pkg/flux/app.go:412-462 | the method computes the route of the specification function |
| Routing.UpperVerbName | pkg/flux/app.go:418-420 | each verb name upper-cased is the router verb in the same position (GET, POST, PUT, DELETE, PATCH, OPTIONS, HEAD) |
| Routing.RouteVerbIsBound | pkg/flux/app.go:416-424 | every route's verb is one of the seven the router switch binds, and a name with no verb gets GET |
| Routing.RoutePathShape | pkg/flux/app.go:426-461 | the path is the base path when nothing follows the verb or the fragment is "index", the base path with "/:id" when the hyphenated lower-case fragment contains "by-id", and otherwise the base path, "/" and the fragment |
| Routing.SplitVerbGet | pkg/flux/app.go:418-424 | an action starting with "Get" has verb GET and the text after the three letters |
| Routing.SplitVerbNone | pkg/flux/app.go:416-424 | an action that cannot start with any verb keeps its whole text and gets GET |
| Routing.RouteGet | pkg/flux/app.go:412-462 | "Handle" + "Get" + rest gives GET and the path of rest |
| Routing.RouteNoVerb | pkg/flux/app.go:412-462 | "Handle" + an action with no verb gives GET and the path of the whole action |
| Routing.RouteUserById | pkg/flux/app.go:445-450 | HandleGetUserById on the user controller is GET /user/:id |
| Routing.RouteCreateUser | pkg/flux/app.go:412-462 | HandleCreateUser is GET /user/create-user: a verb the list lacks falls back to GET and stays in the path |
| Routing.RouteGetHello | pkg/flux/app.go:452-455 | HandleGetHello on the hello controller is GET /hello/hello |
| Routing.RouteByCapitalID | pkg/flux/app.go:428-450 | HandleGetByID is GET /user/by-i-d, not the :id route: every capital of "ID" gets its own hyphen |
| Routing.PathIndex | pkg/flux/app.go:438-443 | the action "Index" maps to the base path |
| Routing.RouteBasePaths | pkg/flux/app.go:438-443 | "Handle", "HandleGet" and "HandleGetIndex" all give GET on the base path |
| Routing.DescriptionFromMethod | pkg/flux/app.go:349-384 | the method computes the description of the specification function |
| Routing.MarkCapsSpaced | pkg/flux/app.go:362-368 | in the spaced text every capital after the first character follows a space |
| Routing.DescriptionNeverById | pkg/flux/app.go:362-374 | the spaced text is never "ById", so only the "By Id" spelling reaches the by-ID phrase |
| Routing.DescriptionWords | pkg/flux/app.go:362-368 | the spaced text is the action's camel-case words joined by single spaces |
| Routing.DescriptionGet | pkg/flux/app.go:349-384 | for "Handle" + "Get" + rest the description is built from rest alone |
| Routing.DescriptionNoVerb | pkg/flux/app.go:349-384 | for an action with no verb the description is built from the whole action |
| Routing.DescriptionDelete | pkg/flux/app.go:354-359 | the verb "Delete" is stripped before the phrase rules run |
| Routing.DescriptionCreateUser | pkg/flux/app.go:375-376 | HandleCreateUser on the user controller is described as "Create a new user" |
| Routing.DescriptionDeleteUser | pkg/flux/app.go:354-383 | HandleDeleteUser is described as just "User": the stripped verb no longer triggers the delete phrase |
| Routing.DescriptionIndex | pkg/flux/app.go:371-372 | HandleGetIndex on the user controller is described as "List all users" |
| Routing.BaseName | pkg/flux/app.go:300 | the base name is the type name without one trailing "Controller", or the type name itself |
| Routing.BasePath | pkg/flux/app.go:301 | the base path is "/" and the lower-cased base name, one character longer, with no capital letters |
| Routing.EntriesSnoc | pkg/flux/app.go:303-340 | one more method adds one entry, one binding and one to the count exactly when its name starts with "Handle" |
| Routing.EntriesMatchBindings | pkg/flux/app.go:303-340 | each Handle method gets exactly one route-table entry and one server binding, with the same verb and path, and every bound verb is one the router knows |
| Routing.Application.constructor | pkg/flux/app.go:127-135 | a new application has no controllers, an empty route table and a router with no bindings |
| Routing.Application.RegisterMethod | pkg/flux/app.go:310-339 | one loop turn appends this method's route-table entry and its server binding |
| Routing.Application.RegisterController | pkg/flux/app.go:286-340 | the controller is appended to the list, and the route table and router gain one entry and one binding per Handle method, in method order |
| Routing.SkipBlanks | pkg/flux/app.go:801 | the scanner skips leading blanks (a newline is an error) and leaves a suffix of the input that does not start with a blank; input that does not start with a blank is left whole |
| Routing.Token | pkg/flux/app.go:801 | the %s word is the longest blank-free prefix |
| Routing.ScanInt | pkg/flux/app.go:801 | a scanned %d value lies in the int64 range and consumes at least one character |
| Routing.ScanIntWord | pkg/flux/app.go:801 | a successful "%d%s" scan gives an int64 value and a non-empty blank-free unit |
| Routing.UnitFactor | pkg/flux/app.go:791-796 | exactly B, KB, MB and GB are known units, with factors 1, 1024, 1024² and 1024³ |
| Routing.Wrap64 | pkg/flux/app.go:810 | Go's int multiplication wraps into the int64 range and is exact when the product fits |
| Routing.BodyLimit | pkg/flux/app.go:790-811 | a failed scan or an unknown unit gives 4 MiB; the result always lies in the int64 range |
| Routing.BodyLimitOf | pkg/flux/app.go:790-811 | a number, any spaces and a known unit in any case give the number times the unit's factor, wrapped to int64 |
| Routing.ScanIntWordOf | pkg/flux/app.go:801 | scanning a number, spaces and a unit word gives the number and the word |
| Routing.BodyLimitNoUnit | pkg/flux/app.go:801-803 | a number without a unit fails the scan and gives the 4 MiB default |
| Routing.BodyLimitOneMB | pkg/flux/app.go:714 | the default setting "1MB" is 1048576 bytes |
| Routing.DefaultErrorHandler | pkg/flux/app.go:248-260 | the body is the error flag and the error's text; a status other than 500 only comes from a fiber error held directly, and is its code |
| Routing.DefaultHandlerIgnoresAppStatus | pkg/flux/app.go:248-260 | an AppError always gets 500 from the default handler, although HandleError answers with its own status |
| Routing.DefaultHandlerWrappedFiber | pkg/flux/app.go:252-254 | a fiber error wrapped in another error gets 500; held directly it gets its code |
| Scaffold.SchemaType | cmd/flux/scaffold.go:1102-1127 | a nil schema is "unknown"; arrays read "array of" their items, item-less objects with additionalProperties read "map[string]" and the value type, a format is added in parentheses |
| Scaffold.SchemaTypeOfGoType | cmd/flux/scaffold.go:1102-1127 | through the schema generator a Go type is described as "string", "integer", "number", "boolean", "object", "array of …" or "map[string]…", and it is "unknown" exactly when the generator gives a nil schema, in which case an enclosing slice or map drops its element type |
| Scaffold.Normalize | cmd/flux/scaffold.go:235-238 | the generated name starts with the input's first character upper-cased and ends with the suffix, which is appended only when missing (also used by generateMiddleware, lines 696-699, and generateService, lines 759-762) |
| Scaffold.NormalizeIdempotent | cmd/flux/scaffold.go:235-238 | normalising a normalised name changes nothing |
| Scaffold.NormalizeKeeps | cmd/flux/scaffold.go:235-238 | a name that starts upper-case and already ends with the suffix is kept as given |
| Scaffold.FreshRoutes | cmd/flux/scaffold.go:473-486 | a new routes/main.go starts with the package clause, the flux import and the RegisterAllRoutes header |
| Scaffold.SpliceRoutes | cmd/flux/scaffold.go:494-519 | a routes file that already mentions Register<Base>Routes is left as it is |
| Scaffold.SpliceRoutesInserts | cmd/flux/scaffold.go:498-507 | when the call is absent, the registration lines go right before the first "}" after the first "func RegisterAllRoutes", and nothing else changes |
| Scaffold.SpliceRoutesNoMarker | cmd/flux/scaffold.go:498-499 | a file without "func RegisterAllRoutes" past index 0 is left unchanged |
| Scaffold.SpliceRoutesNoBrace | cmd/flux/scaffold.go:500-511 | a file with no "}" after the marker is left unchanged |
| Scaffold.SpliceRoutesRegisters | cmd/flux/scaffold.go:496-507 | a changed routes file contains the controller's registration call |
| Scaffold.SpliceRoutesIdempotent | cmd/flux/scaffold.go:496 | splicing twice is splicing once |
| Scaffold.FreshRoutesRegisters | cmd/flux/scaffold.go:473-486 | the fresh file already registers the controller, so the splice leaves it unchanged |
| Scaffold.MainRoutes | cmd/flux/scaffold.go:470-520 | a missing file gives the fresh file, an unreadable one gives "failed to read main routes file: " and the cause, an existing one is spliced |
| Scaffold.MainRoutesRerun | cmd/flux/scaffold.go:470-520 | generating the same controller again leaves routes/main.go as the first run wrote it |
| Scaffold.ModuleName | cmd/flux/scaffold.go:1129-1144 | an unreadable go.mod gives "app"; the result is never empty and has no white space |
| Scaffold.ModuleNameOf | cmd/flux/scaffold.go:1135-1140 | a go.mod whose first line is "module" and a word gives that word |
| Scaffold.WriteResponseCell | cmd/flux/scaffold.go:1041-1047 | the schema cell is "No content" for a response without content, else the type of the schema under the least content type |
| Scaffold.WriteResponseRows | cmd/flux/scaffold.go:1031-1050 | the loop writes one row per response, in sorted status-code order |
| Scaffold.WriteOperation | cmd/flux/scaffold.go:983-1051 | an endpoint is its heading, its description line, its request-body lines, the responses table and a rule |
| Scaffold.WritePropertyRows | cmd/flux/scaffold.go:1083-1093 | the loop writes one row per property in sorted name order, marking the required ones true |
| Scaffold.WriteModel | cmd/flux/scaffold.go:1068-1095 | a model is its heading and, when it has properties, the property table |
| Scaffold.WritePath | cmd/flux/scaffold.go:972-1053 | a path's endpoints are written in the order GET, POST, PUT, DELETE, PATCH, skipping absent operations |
| Scaffold.WriteEndpoints | cmd/flux/scaffold.go:962-1054 | the endpoints are written by sorted path |
| Scaffold.WriteModelList | cmd/flux/scaffold.go:1066-1096 | the models are written in the given name order |
| Scaffold.WriteModels | cmd/flux/scaffold.go:1057-1097 | no Models section without schemas, else the heading and every model by sorted name |
| Scaffold.GenerateMarkdown | cmd/flux/scaffold.go:951-1100 | api.md is the title block, the endpoints by sorted path and then the models |
| Sorting.SortStrings | cmd/flux/scaffold.go:966 | the sort yields a sorted permutation of its input |
| Sorting.InsertSorted | cmd/flux/scaffold.go:966 | inserting into a sorted list keeps it sorted |
| Sorting.SortedUnique | cmd/flux/scaffold.go:966 | two sorted lists with the same elements are equal, so the sorted order of a key set is unique |
| Sorting.SortedKeysUnique | cmd/flux/scaffold.go:962-966 | any sorted listing of a key set is the sorted keys, so the order does not depend on map iteration |
| Sorting.SortedKeysOf | cmd/flux/scaffold.go:962-966 | collecting map keys and sorting them gives the sorted keys |
| Sorting.Insert | cmd/flux/scaffold.go:966 | insertion adds exactly one copy of the element |
| Sorting.SortedKeysSorted | cmd/flux/scaffold.go:962-966 | the sorted listing of a key set is sorted |
| Sorting.SortedKeysElements | cmd/flux/scaffold.go:962-966 | the sorted listing holds each key exactly once |
| Sorting.SortedKeys | cmd/flux/scaffold.go:962-966 | the sorted listing has as many entries as the set and holds exactly its elements |
| Microservices.DefaultCorsConfig | pkg/flux/app.go:78-87 | the default CORS policy allows every origin, without credentials, for 86400 seconds |
| Microservices.DefaultServiceConfig | pkg/flux/microservice.go:49-62 | the default configuration has no name, listens on 0.0.0.0:3000 with 30-second timeouts, a "1MB" body limit, "info" logging and the default CORS policy, turns tracing, metrics and the health check on, and no database, cache, queue or auth |
| Microservices.SettingsFor | pkg/flux/microservice.go:114-140 | the application is configured with the service's name, version and description and the configured host, port, log level, CORS policy, body limit and timeouts |
| Microservices.RouteBindings | pkg/flux/microservice.go:161-166 | one binding per registered route |
| Microservices.RouteBindingsInOrder | pkg/flux/microservice.go:161-166 | route i is bound with its own method, path and handler, at position i |
| Microservices.SetupBindings | pkg/flux/microservice.go:146-166 | Setup binds one endpoint per enabled health check and metrics switch and then every route |
| Microservices.SetupBindingsEndWithRoutes | pkg/flux/microservice.go:160-163 | the routes' own bindings come last |
| Microservices.SetupBindsRoutes | pkg/flux/microservice.go:146-166 | after the health and metrics endpoints (`Microservices.Extras`), route i is bound at position i with its own method, path and handler |
| Microservices.Microservice.constructor | pkg/flux/microservice.go:64-72 | a new service holds its name, version and description, the default configuration, no routes, and is not set up |
| Microservices.Microservice.WithConfig | pkg/flux/microservice.go:74-77 | the configuration is replaced and the service itself returned; nothing else changes |
| Microservices.Microservice.AddRoute | pkg/flux/microservice.go:79-87 | the route is appended at the end with its method, path, description and handler, and the service itself returned; nothing else changes |
| Microservices.Microservice.Get | pkg/flux/microservice.go:89-91 | appends a GET route |
| Microservices.Microservice.Post | pkg/flux/microservice.go:93-95 | appends a POST route |
| Microservices.Microservice.Put | pkg/flux/microservice.go:97-99 | appends a PUT route |
| Microservices.Microservice.Patch | pkg/flux/microservice.go:101-103 | appends a PATCH route |
| Microservices.Microservice.Delete | pkg/flux/microservice.go:105-107 | appends a DELETE route |
| Microservices.Microservice.Setup | pkg/flux/microservice.go:109-170 | a second Setup does nothing and succeeds; a failure to build the application gives "failed to create application: " and the cause and leaves the service not set up; otherwise the application gets the service's settings, tracing follows the switch, the health and metrics endpoints and then each route with its own handler are bound, and the service is set up |
| Microservices.Microservice.Start | pkg/flux/microservice.go:173-185 | Start sets the service up first when needed. A failed setup passes on the error, leaves the service not set up with nothing newly bound, and does not listen. A successful setup binds the Setup endpoints, installs tracing when enabled and builds the application from the service's settings. Whenever the service is set up, Start then listens on host:port. Name, version, description, configuration and routes are unchanged |
| Microservices.ListenAddress | pkg/flux/microservice.go:182 | the listen address starts with the host and a colon |
| Microservices.ListenAddressPort | pkg/flux/microservice.go:182 | after the colon come only digits, and they spell the port |
| Microservices.UnderInjective | pkg/flux/microservice.go:355-378 | different relative paths give different project directories |
| Microservices.UnderAll | pkg/flux/microservice.go:355-378 | every relative path is joined under the project directory, in order |
| Microservices.UnderAllMember | pkg/flux/microservice.go:355-378 | a joined path is in the list exactly when its relative part is |
| Microservices.BaseRels | pkg/flux/microservice.go:355-365 | every project gets nine base directories |
| Microservices.OptionalRels | pkg/flux/microservice.go:367-378 | a database adds two directories, a cache one and a queue one |
| Microservices.ProjectDirs | pkg/flux/microservice.go:355-378 | the directories created inside the project directory (itself created first, at line 351) are the nine base ones, under the project name, followed by those of the selected features |
| Microservices.ProjectDirsOptional | pkg/flux/microservice.go:367-378 | a feature directory is created exactly when its feature is selected |
| Microservices.OptionalRelsFeatures | pkg/flux/microservice.go:367-378 | internal/database and migrations come with the database, internal/cache with the cache, internal/queue with the queue |
| Microservices.AdditionalConfig | pkg/flux/microservice.go:545-602 | the extra configuration is empty exactly when no database, cache, queue or auth is selected |
| Microservices.AdditionalConfigFeatures | pkg/flux/microservice.go:545-602 | the database, cache, queue and auth sections appear, in that order, exactly for the selected features, so the selection can be read back from the text |
| Microservices.ConfigFileSections | pkg/flux/microservice.go:516-543 | config.yaml ends with the selected sections and a newline |
| Microservices.MountMounts | pkg/flux/microservice.go:657-686 | a volume mount line names its volume |
| Microservices.PostgresMounted | pkg/flux/microservice.go:645-666 | with a database, the compose services mount postgres-data |
| Microservices.RedisMounted | pkg/flux/microservice.go:668-677 | with a cache, the compose services mount redis-data |
| Microservices.QueueMounted | pkg/flux/microservice.go:679-690 | with a queue, the compose services mount queue-data |
| Microservices.ComposeServicesMount | pkg/flux/microservice.go:632-690 | every volume a selected service uses is mounted in the compose services |
| Microservices.VolumesBlock | pkg/flux/microservice.go:692-707 | the top-level volumes block is empty exactly when no volume is declared |
| Microservices.DeclaredVolumes | pkg/flux/microservice.go:695-703 | only postgres-data (with a database) and redis-data (with a cache) are declared |
| Microservices.ComposeVolumes | pkg/flux/microservice.go:692-707 | the volumes block is empty exactly when there is neither database nor cache |
| Microservices.ComposeVolumesDeclare | pkg/flux/microservice.go:692-707 | the volumes block lists exactly the declared volumes |
| Microservices.QueueVolumeUndeclared | pkg/flux/microservice.go:679-709 | as written, a queue service mounts queue-data but the volumes block never declares it |
| Microservices.DeclaredVolumesFixed | pkg/flux/microservice.go:692-707 | the corrected declaration lists exactly the volumes the selected services use |
| Microservices.VolumeEntriesDeclare | pkg/flux/microservice.go:695-703 | each listed volume gets its entry in the volumes block |
| Microservices.DockerComposeDeclares | pkg/flux/microservice.go:632-710 | in the corrected docker-compose.yml every mounted volume is declared |
| Microservices.DockerfileBuildsService | pkg/flux/microservice.go:604-630 | the Dockerfile builds ./cmd/<name> and exposes the configured port |
| Microservices.GoModModuleName | pkg/flux/microservice.go:406-414 | the generated go.mod declares the module github.com/<name>, as the generator's go.mod reader sees it |
| Microservices.CreateMicroserviceProject | pkg/flux/microservice.go:341-431 | a nil configuration means the default one; an empty name is refused with "microservice name cannot be empty" before anything is created; otherwise the project is planned for the given configuration, whose files are `ProjectPlan.Dirs`, `ConfigYaml`, `DockerfileText`, `ComposeYaml` (docker-compose.yml as generateDockerCompose writes it) and `GoModText` |
| Microservices.ProjectConfigYaml | pkg/flux/microservice.go:391-392 | the config.yaml of a created project ends with the selected sections and a newline |
| Microservices.ProjectDockerfile | pkg/flux/microservice.go:396-397 | the Dockerfile of a created project builds cmd/<name> and exposes the configured port |
| Microservices.ProjectCompose | pkg/flux/microservice.go:401-402 | the docker-compose.yml of a created project is its services followed by the block declaring postgres-data and redis-data when used; it mounts every volume its services use, and a queue's queue-data is not declared |
| Microservices.ComposeAsWrittenMounts | pkg/flux/microservice.go:632-709 | generateDockerCompose's text mounts every volume its services use and declares only DeclaredVolumes, never queue-data |
| Microservices.ProjectGoMod | pkg/flux/microservice.go:405-415 | reading the module name of a created project's go.mod back gives github.com/<name> |
| Microservices.NilConfigRefused | pkg/flux/microservice.go:341-349 | a nil configuration always fails, since the default has no name |
| NewController.SpliceImport | cmd/flux/newcontroller.go:201-210 | as written: a file that already has the controllers import, or has no "import (", is left unchanged |
| NewController.SpliceImportInserts | cmd/flux/newcontroller.go:205-209 | as written, the import line goes right before the first ")" of the whole file, with a tab before it and a newline after it |
| NewController.SpliceImportAdds | cmd/flux/newcontroller.go:205-209 | a changed file contains the import |
| NewController.SpliceImportIdempotent | cmd/flux/newcontroller.go:205 | splicing the import twice is splicing it once |
| NewController.SpliceImportBeforeBlock | cmd/flux/newcontroller.go:206-208 | as written, a ")" before "import (" receives the import line, outside the import block |
| NewController.SpliceImportInBlock | cmd/flux/newcontroller.go:201-210 | corrected splice: a file that already has the import, or has no "import (", is left unchanged |
| NewController.SpliceImportInBlockPlacement | cmd/flux/newcontroller.go:205-209 | the corrected splice inserts right before the first ")" after the first "import (", at the end of the import block and never before it |
| NewController.SpliceImportInBlockIdempotent | cmd/flux/newcontroller.go:205 | the corrected splice is idempotent too |
| NewController.SpliceImportInBlockAfterBlock | cmd/flux/newcontroller.go:206-208 | on the file where the original splice misplaces the import, the corrected one leaves the file unchanged, since no ")" follows "import (" |
| NewController.SpliceRegistration | cmd/flux/newcontroller.go:213-218 | a file without "// Start the server", or that already registers the controller, is left unchanged |
| NewController.SpliceRegistrationInserts | cmd/flux/newcontroller.go:214-217 | the registration comment and RegisterController call go right before the first "// Start the server", and nothing else changes |
| NewController.SpliceRegistrationIdempotent | cmd/flux/newcontroller.go:216 | registering the same controller twice is registering it once |
| NewController.UpdateMain | cmd/flux/newcontroller.go:191-224 | no main.go means nothing to write; an unreadable one gives "failed to read main.go: " and the cause; otherwise the text gets the import by the splice as written, then the registration |
| NewController.SpliceImportKeepsMarker | cmd/flux/newcontroller.go:205-215 | the import splice inserts at a ")", so a "// Start the server" marker in main.go survives it |
| NewController.UpdateMainRegisters | cmd/flux/newcontroller.go:205-218 | whenever main.go has the "// Start the server" marker, the updated text registers the controller, whether it was registered before or not |
| NewController.ImportSingleSlashes | cmd/flux/newcontroller.go:205 | a module path whose every "/" is followed by another character gives an import line with the same property |
| NewController.MarkerAvoids | cmd/flux/newcontroller.go:213-216 | an occurrence of such a word cannot straddle the start of the "// Start the server" marker, so it lies wholly before or wholly after the registration |
| NewController.SpliceImportHas | cmd/flux/newcontroller.go:201-209 | with an import block and a first ")" past the first character, the file holds the import after the splice, whether it was there before or not |
| NewController.SpliceRegistrationGrows | cmd/flux/newcontroller.go:216-217 | the registration splice never shortens the file |
| NewController.UpdateMainRerun | cmd/flux/newcontroller.go:195-218 | running the update again on its own output changes nothing, for a main.go that starts with its package clause and has an import block and a ")", with a module path of single slashes |
| NewController.RegistrationParen | cmd/flux/newcontroller.go:214 | the registration block starts with a tab and holds a ")" |
| NewController.HeadUnquoted | cmd/flux/newcontroller.go:214 | the registration comment holds no '"' when the controller name holds none |
| NewController.RegistrationUnquoted | cmd/flux/newcontroller.go:214 | the whole registration block holds no '"' when the controller name holds none |
| NewController.ParenInInsert | cmd/flux/newcontroller.go:206-207 | text inserted after a part without ")" brings the first ")" of the result, which is then past index 0 |
| NewController.RerunGrows | cmd/flux/newcontroller.go:205-218 | on a file with the import block, no import yet and a first ")" past index 0, the update lengthens the file |
| NewController.RegistrationKeepsBlock | cmd/flux/newcontroller.go:201-217 | registering at the marker keeps the "import (" opener |
| NewController.FirstRunOnlyRegisters | cmd/flux/newcontroller.go:205-217 | on a main.go without ")" the update places no import and only inserts the registration before the marker |
| NewController.UpdateMainRerunChanges | cmd/flux/newcontroller.go:195-218 | on a main.go with the import block and marker but without ")" or '"', a second update changes the file: the registration brought the ")" the first run lacked |
| NewController.ImportSectionPlain | cmd/flux/newcontroller.go:201 | "import (" holds neither ")" nor '"' |
| NewController.MarkerPlain | cmd/flux/newcontroller.go:213 | "// Start the server" holds neither ")" nor '"' |
| NewController.OpenImportMainShape | cmd/flux/newcontroller.go:201-213 | the text "import (", a newline, the marker and a newline has the block and the marker and no ")" or '"' |
| NewController.UpdateMainRerunWithoutParen | cmd/flux/newcontroller.go:195-218 | on that text, with controller XController in module m, the second update differs from the first |
| HotReload.NonEmpty | pkg/forge/hot_reload.go:71 | the empty elements are dropped and every other element kept, in order |
| HotReload.JoinPath | pkg/forge/hot_reload.go:140-162 | filepath.Join on a clean root and clean elements: with no non-empty element the root itself ("" for an empty root); a root of "" or "." contributes nothing; otherwise the root, "/" and the elements joined by "/" |
| HotReload.JoinTwo | pkg/forge/hot_reload.go:71 | joining two non-empty elements from "" or "." gives them separated by "/" |
| HotReload.JoinOne | pkg/forge/hot_reload.go:140-162 | joining one element onto "." gives the element |
| HotReload.LastSlash | pkg/forge/hot_reload.go:74 | the index found holds "/" and no "/" follows it; -1 when there is none |
| HotReload.Dir | pkg/forge/hot_reload.go:74 | a path without "/" has directory "."; otherwise the directory is a prefix of the path, "/" itself or followed by "/" in the path |
| HotReload.DirOfChild | pkg/forge/hot_reload.go:74 | the directory of dir/file, for a file name without "/", is dir |
| HotReload.TempBinaryName | pkg/forge/hot_reload.go:94-99 | the temporary binary is "tmp_flux_app.exe" exactly on windows and "tmp_flux_app" everywhere else |
| HotReload.EntryPoint | pkg/forge/hot_reload.go:70-72 | a given entry point is used as is; without one it is cmd/<name>/main.go, or cmd/main.go for an empty name |
| HotReload.DefaultJoin | pkg/forge/hot_reload.go:71 | the default entry point for a name is "cmd/", the name and "/main.go", or "cmd/main.go" for an empty name |
| HotReload.HotReloader.constructor | pkg/forge/hot_reload.go:40-60 | a monolith reloader works at the project root ".", builds the package "." into the temporary binary and runs it with go run |
| HotReload.HotReloader.ForService | pkg/forge/hot_reload.go:63-91 | a service reloader records the service name, watches the entry point's directory, and builds and runs the entry point |
| HotReload.HotReloader.SetCustomBuildCommand | pkg/forge/hot_reload.go:295-298 | replaces the build command and nothing else |
| HotReload.HotReloader.SetCustomRunCommand | pkg/forge/hot_reload.go:300-303 | replaces the run command and nothing else |
| HotReload.HotReloader.SetProjectRoot | pkg/forge/hot_reload.go:305-307 | replaces the project root and nothing else |
| HotReload.HotReloader.SetupWatcher | pkg/forge/hot_reload.go:166-194 | the loop walks every listed directory that exists with the filter as written, skipping missing ones, and watches each directory the walk keeps; a listed directory is watched when the filter accepts its own name (for well-named trees, its path's last element) |
| HotReload.HotReloader.DirsToWatch | pkg/forge/hot_reload.go:134-164 | the watch list starts with the project root; a service watches five directories, or eight when it has a name |
| HotReload.DefaultEntryPoint | pkg/forge/hot_reload.go:70-74 | a named service without an entry point builds cmd/<name>/main.go and its entry directory is cmd/<name> |
| HotReload.WatchRoots | pkg/forge/hot_reload.go:134-164 | a monolith watches six directories, a service five or eight, the project root first |
| HotReload.WatchRootsAtDot | pkg/forge/hot_reload.go:134-164 | from the root ".", a monolith watches ., cmd, pkg, control, plugins and app; a service watches ., api, cmd, internal and pkg, plus cmd/<name>, api/<name> and internal/<name> when named |
| HotReload.WalkAdd | pkg/forge/hot_reload.go:172-191 | as written, a walk adds nothing exactly when its starting directory's name is hidden, vendor, node_modules or tmp; otherwise it adds the starting directory first |
| HotReload.DotRootSkipped | pkg/forge/hot_reload.go:178-183 | as written, walking "." adds nothing at all, because "." starts with a dot |
| HotReload.WalkAddFromRoot | pkg/forge/hot_reload.go:172-191 | the corrected walk always adds the directory it starts from, first |
| HotReload.WalkAddFromRootAgrees | pkg/forge/hot_reload.go:172-191 | the corrected walk equals the original one unless the starting directory's own name is filtered, in which case it still adds that directory |
| HotReload.WatchedDirsKept | pkg/forge/hot_reload.go:166-194 | as written, an existing listed directory whose own name the filter accepts is watched |
| HotReload.Base | pkg/forge/hot_reload.go:172 | filepath.Base: "." for the empty path, "/" for a path of slashes only; otherwise a non-empty last element without "/", which starts the path or follows a "/" and is followed only by trailing slashes; a path without "/" is its own base |
| HotReload.BaseEdgeCases | pkg/forge/hot_reload.go:172 | Base("/") is "/", a trailing slash is ignored ("cmd/api/" gives "api"), and Base(".") is "." |
| HotReload.DotRootWalksNothing | pkg/forge/hot_reload.go:172-183 | as written, walking a well-named project root "." adds nothing, whatever lies below it |
| HotReload.WatchedDirsCover | pkg/forge/hot_reload.go:166-194 | with the corrected walk, every listed directory that exists is watched |
| HotReload.WatchedDirsAsWrittenLosesRoot | pkg/forge/hot_reload.go:166-194 | for the project root "." alone, the loop as written watches nothing, while the corrected one watches "." |
| HotReload.TmpTestRedundant | pkg/forge/hot_reload.go:261-263 | a name ending in ".go" never ends in ".tmp", so that test never decides |
| HotReload.MaskBits | pkg/forge/hot_reload.go:267 | the mask test holds exactly when one of the write, create, remove or rename bits is set |
| HotReload.TriggersReloadExactly | pkg/forge/hot_reload.go:261-267 | an event triggers a reload exactly for a non-test Go file with a write, create, remove or rename; a chmod alone never does |

## Left out

- NewController.UpdateMainRerun: a second update of main.go is proved to change nothing only for a main.go that starts with `package`, has an import block and a ")", and a module path whose every "/" is followed by another character. Without a ")" the update as written is not idempotent (`NewController.UpdateMainRerunChanges`). The other two hypotheses are what the proof uses to place the first run's import away from the marker; a main.go outside them is not covered.
- The fiber transport is not modelled. Fiber contexts, routers, `Listen`, `Test`, response writing and JSON/XML marshalling are opaque. A response is modelled as its status, its headers and the value handed to the encoder.
- Reflection is not modelled, except that the method set of `*Controller` is listed (`Controllers.ControllerMethodNames`). A controller is its type name plus its method names in reflection's order. A Go type is an inductive description. A method is its name, its package path and its input types.
- Go map iteration order is left free where the source leaves it free. `FluxContext.ValidationErrorsText` promises some order that lists every entry once, not a particular one. `FluxContext.ValidateWithDetails` takes the validator's field errors as an input sequence.
- Scaffold.WriteResponseCell: Go reads the schema under whichever content type its map iteration meets first. The model uses the least content type, which is the same choice whenever there is one content type.
- Scaffold.Normalize: requires a non-empty name, because `name[:1]` in Go panics on an empty name.
- Strings are sequences of characters, not UTF-8 bytes, and the string functions are ASCII-only. Case conversion (`Str.ToLower`/`Str.ToUpper`) leaves non-ASCII letters alone where Go maps them. `Str.IsSpace` is ASCII white space where `strings.Fields` (the go.mod reading in cmd/flux/scaffold.go:1135-1140) uses Unicode white space. Go's `name[:1]` in `Scaffold.Normalize` and the newcontroller name handling takes one byte, which splits a non-ASCII first character into invalid UTF-8; the model takes the whole first character.
- Controllers.Controller.RegisterMethods: states that each stored route is a new object only for one step (`Controllers.Controller.RegisterIfHandle`), not for the whole loop.
- Routing.Application.RegisterController: the `SetApplication` call on a controller that has one (pkg/flux/app.go:290-292) is not modelled, because the controller is modelled as a value (its type name and method list) and not as the controller object. The `app.mu` lock around the registration (pkg/flux/app.go:287-288) is left out with the rest of the concurrency.
- Controllers.Controller.Group: Go's group shares the backing array of the controller's middleware slice (pkg/flux/controller.go:227). Controllers.ControllerGroup.Use can then write into that array, and a later `Controller.Use` can overwrite what the group appended. The model copies the list by value, so this aliasing is not captured.
- OpenApi.GenerateSchema: a Go type is an inductive description, so a self-referential struct (`type Node struct { Next *Node }`) cannot be expressed. On such a type the source's `generateSchemaFromType` (pkg/forge/openapi.go:277-332) recurses without end, having no cycle guard; the model's totality says nothing about it.
- Microservices.RouteBindingsInOrder: the route loop (pkg/flux/microservice.go:161-166) binds a closure over the loop variable `route`. The model gives route i its own handler, which is Go 1.22's per-iteration loop variable. Under earlier Go every route would run the last route's handler. The repository's go.mod is not part of this model.
- HotReload.HotReloader.SetupWatcher: the trees in `fs` are inputs. Only with `HotReload.WellNamed` (each tree named after its path's last element, as `os.Lstat` gives the walk) does the filter's verdict on a listed directory follow from its path.
- HotReload.JoinPath: models `filepath.Join` as joining the non-empty elements with "/" and dropping a leading ".". The full lexical `Clean` ("..", repeated slashes) is not modelled.
- HotReload.Dir: models `filepath.Dir` as the text before the last "/" ("/" for a top-level entry, "." without a "/") without the `Clean` Go applies to it. An entry path that is not clean, such as "./cmd/main.go" passed to `ForService` (pkg/forge/hot_reload.go:70-74), gives "./cmd" where Go gives "cmd".
- Microservices.Under: models `filepath.Join(root, rel)` as `root + "/" + rel` for the relative directory names the generator uses. `Clean` is not modelled.
- The `Timeout` middleware is not modelled: it needs a goroutine and a select.
- `Recover` is not modelled: Go panics have no counterpart.
- The rate limiter's cleanup goroutine and its mutexes are not modelled. A request is handled as one atomic step.
- `RequestLogger`, `SecurityHeaders`, `CacheControl`, `NoCache` and `New` in pkg/forge/middleware/middleware.go only set fixed headers or write log lines, and are not modelled.
- Graceful shutdown and its signal handlers are not modelled (pkg/flux/app.go:630-659, pkg/flux/microservice.go:224-244). Neither are `StartWithHotReload`, `Stop` and the open-connection count.
- `New`, `ConfigureMiddleware`, `AddTracing`, `EnableHealthCheck` and the `With*` options in pkg/flux/app.go are not modelled, beyond the body-limit parser and the default error handler they use. `generateTraceID` is random and is left out.
- The route manager behind `app.routes` (`RouteManager`, `GenerateRouteFiles`) is not part of this model. It is an append-only log of `Add` calls (`Controllers.RouteLog`).
- Handler wrapping through `NewContext` (`createHandlerFunc`, `fluxHandlerToFiberHandler`) is not modelled. A bound route records the handler itself, or the handler together with the controller whose middleware runs around it.
- Plugin loading and building the microservice's application are not modelled. Whether building the application fails is an input to `Setup`.
- Opening the gorm connection, pool tuning, `GetDriverName` and the thin gorm wrappers (`Create`, `Find`, `Transaction`, …) are not modelled. A migration's Up and Down are functions of the store of applied names.
- Logger output is not modelled: `log`'s formatting and writing, the `Debug`…`Fatal` helpers, `Fatal`'s exit and the global logger. What the level filter lets through is modelled (`Logging.Emits`).
- Directory creation and file reads and writes in the generators are not modelled, nor their errors. Their outcomes are inputs, as with the routes file and main.go. Their effects are the planned text (`Microservices.ProjectPlan`).
- The controller, model, repository, middleware and service templates written by cmd/flux/scaffold.go and cmd/flux/newcontroller.go are not modelled. Neither are the microservice's main.go, health handler, README and config options text. Only the names they are generated under are modelled.
- The request-body schema tables that the Markdown documentation adds after each request body are not modelled.
- `GenerateSwaggerUI` and the HTML it returns are not modelled.
- The hot reloader's watch loop is not modelled: its debounce timer, `startApp`/`Stop` process control and the start message. Watcher creation errors and a `watcher.Add` error aborting the walk are not modelled either. The directory tree a walk sees and the operating system's name are inputs.
- The CLI in cmd/flux/main.go and cmd/flux/scaffold.go's `main` (cobra, `os.Exit`, `exec`) is not modelled.
- `Context` accessors that only forward to fiber (`Param`, `Header`, `Status`, `Redirect`, `SendFile`, the form and file helpers, `Stream`, `Success`) are not modelled.

## Findings

| source | as written | input that shows it | evidently intended | confidence | as-written member | corrected member |
|---|---|---|---|---|---|---|
| pkg/forge/hot_reload.go:166-194 | `filepath.Walk` also passes the walk's root to the skip filter. Walking "." sees the name ".", which starts with a dot, so the walk returns `SkipDir` at once. | projectRoot "." with any directory tree, e.g. one holding ./main.go | the filter applies below the root, so the project root and its subdirectories are watched | high, not executed | HotReload.WatchedDirsAsWrittenLosesRoot | HotReload.WatchedDirsCover |
| cmd/flux/newcontroller.go:205-209 | the controllers import goes before the first ")" of the whole file, which need not be in the import block | main.go text "x)import (" | the import goes before the ")" that closes the `import (` block | high, not executed | NewController.SpliceImportBeforeBlock | NewController.SpliceImportInBlockPlacement |
| pkg/flux/controller.go:39-51 | `RegisterRoutes` reflects on its receiver, a `*Controller`, whose method set is Controller's own (Use, RegisterRoute, Name, …). None is named Handle…, so nothing is registered; a controller embedding Controller has its handlers hidden. | any group member added as a *Controller, registered by pkg/flux/controller.go:281 | the Handle… methods of the embedding controller type are registered | high, not executed | Controllers.Controller.RegisterRoutes | Controllers.Controller.RegisterMethods |
| pkg/forge/middleware/middleware.go:405 | `validate.Struct` is given `ctx.Body()`, a `[]byte`. go-playground/validator refuses any non-struct with an InvalidValidationError, which is not a ValidationErrors. | any request with a body when the application has a validator | the parsed request struct is validated, so valid bodies reach next and invalid ones get the per-field report | high, not executed | Middleware.Validator | Middleware.ValidatorHandle |
| pkg/flux/microservice.go:679-709 | the queue service mounts the volume `queue-data`, but the top-level volumes block never declares it | a configuration with WithQueue set | every named volume a service mounts is declared | high, not executed | Microservices.QueueVolumeUndeclared | Microservices.DockerComposeDeclares |
