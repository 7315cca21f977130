/**
 * pkg/flux/microservice.go: the Microservice's route builder and its
 * one-time Setup, the default configuration, and the project generator's
 * directory list, config.yaml, docker-compose.yml and go.mod.
 *
 * The application Setup builds is seen only through the routes it binds
 * on its server; whether building it fails is an input.  Directory
 * creation and file writes are left out: the generator is modelled by the
 * plan of what it creates.
 */
module Microservices {
  import opened Wrappers
  import opened Str
  import Controllers
  import Middleware
  import Scaffold

  // ------------------------------------------------------------ configuration

  /** One second as a time.Duration, in nanoseconds. */
  const Second: int := 1_000_000_000

  datatype ServiceConfig = ServiceConfig(
    name: string,
    port: int,
    host: string,
    description: string,
    readTimeout: int,
    writeTimeout: int,
    bodyLimit: string,
    cors: Middleware.CorsConfig,
    logLevel: string,
    enableTracing: bool,
    metrics: bool,
    healthCheck: bool,
    withDB: bool,
    withCache: bool,
    withQueue: bool,
    withAuth: bool)

  /** DefaultCORSConfig of pkg/flux/app.go. */
  function DefaultCorsConfig(): (c: Middleware.CorsConfig)
    ensures c.allowOrigins == "*" && !c.allowCredentials && c.maxAge == 86400
  {
    Middleware.CorsConfig(
      "*", "GET,POST,PUT,DELETE,OPTIONS,PATCH",
      "Origin,Content-Type,Accept,Authorization,X-Requested-With", false, "", 86400)
  }

  /** DefaultMicroserviceConfig: no name, 0.0.0.0:3000, 30 s timeouts, "1MB", "info", tracing, metrics and health check on, no extras. */
  function DefaultServiceConfig(): (c: ServiceConfig)
    ensures c.name == "" && c.host == "0.0.0.0" && c.port == 3000
    ensures c.readTimeout == 30 * Second && c.writeTimeout == 30 * Second
    ensures c.bodyLimit == "1MB" && c.logLevel == "info" && c.cors == DefaultCorsConfig()
    ensures c.enableTracing && c.metrics && c.healthCheck
    ensures !c.withDB && !c.withCache && !c.withQueue && !c.withAuth
  {
    ServiceConfig("", 3000, "0.0.0.0", "", 30 * Second, 30 * Second, "1MB", DefaultCorsConfig(),
                  "info", true, true, true, false, false, false, false)
  }

  // ------------------------------------------------------------ the service

  /** A route of the builder: method, path, description and handler. */
  datatype ServiceRoute = ServiceRoute(verb: string, path: string, description: string, handler: Controllers.HandlerFunc)

  /** What Setup builds the application with: identity, address, log level, CORS, and the middleware limits. */
  datatype AppSettings = AppSettings(
    name: string, version: string, description: string, host: string, port: int, logLevel: string,
    cors: Middleware.CorsConfig, bodyLimit: string, readTimeout: int, writeTimeout: int)

  /** The settings of the application built for service `name` under `config`. */
  function SettingsFor(name: string, version: string, description: string, config: ServiceConfig): (a: AppSettings)
    ensures a.name == name && a.version == version && a.description == description
    ensures a.host == config.host && a.port == config.port && a.logLevel == config.logLevel && a.cors == config.cors
    ensures a.bodyLimit == config.bodyLimit && a.readTimeout == config.readTimeout && a.writeTimeout == config.writeTimeout
  {
    AppSettings(name, version, description, config.host, config.port, config.logLevel,
                config.cors, config.bodyLimit, config.readTimeout, config.writeTimeout)
  }

  /** What a binding runs: the built-in health check or metrics handler, or a route's own handler on a fresh request context. */
  datatype Target = Health | Metrics | Serve(handler: Controllers.HandlerFunc)

  /** A route bound on the application's server. */
  datatype Bound = Bound(verb: string, path: string, target: Target)

  /** The bindings for `routes`, one per route, in order. */
  function RouteBindings(routes: seq<ServiceRoute>): (r: seq<Bound>)
    ensures |r| == |routes|
  {
    if routes == [] then []
    else
      var last := routes[|routes| - 1];
      RouteBindings(routes[..|routes| - 1]) + [Bound(last.verb, last.path, Serve(last.handler))]
  }

  /** Every route is bound with its own method, path and handler, at its own position. */
  lemma {:induction false} RouteBindingsInOrder(routes: seq<ServiceRoute>, i: int)
    requires 0 <= i < |routes|
    ensures RouteBindings(routes)[i] == Bound(routes[i].verb, routes[i].path, Serve(routes[i].handler))
    decreases |routes|
  {
    if i < |routes| - 1 {
      RouteBindingsInOrder(routes[..|routes| - 1], i);
    }
  }

  /** What Setup binds: the health check, then the metrics endpoint, each when enabled, then the routes. */
  function SetupBindings(config: ServiceConfig, routes: seq<ServiceRoute>): (r: seq<Bound>)
    ensures |r| == |routes| + (if config.healthCheck then 1 else 0) + (if config.metrics then 1 else 0)
  {
    Extras(config) + RouteBindings(routes)
  }

  /** The routes' own bindings come last, after the built-in endpoints. */
  lemma SetupBindingsEndWithRoutes(config: ServiceConfig, routes: seq<ServiceRoute>)
    ensures HasSuffixSeq(SetupBindings(config, routes), RouteBindings(routes))
  {
    var extras := Extras(config);
    assert (extras + RouteBindings(routes))[|extras|..] == RouteBindings(routes);
  }

  /** The health check and metrics endpoints, each when enabled, in that order. */
  function Extras(config: ServiceConfig): seq<Bound>
  {
    (if config.healthCheck then [Bound("GET", "/health", Health)] else [])
    + (if config.metrics then [Bound("GET", "/metrics", Metrics)] else [])
  }

  /** Setup's route loop: one binding per route, in insertion order, after `bound`. */
  method BindRoutes(bound: seq<Bound>, routes: seq<ServiceRoute>) returns (r: seq<Bound>)
    ensures r == bound + RouteBindings(routes)
  {
    r := bound;
    var i := 0;
    while i < |routes|
      invariant 0 <= i <= |routes|
      invariant r == bound + RouteBindings(routes[..i])
    {
      assert routes[..i + 1][..i] == routes[..i];
      r := r + [Bound(routes[i].verb, routes[i].path, Serve(routes[i].handler))];
      i := i + 1;
    }
    assert routes[..|routes|] == routes;
  }

  ghost predicate HasSuffixSeq(s: seq<Bound>, t: seq<Bound>)
  {
    |t| <= |s| && s[|s| - |t|..] == t
  }

  class Microservice {
    var name: string
    var version: string
    var description: string
    var config: ServiceConfig
    var routes: seq<ServiceRoute>
    var isSetup: bool
    /** The routes Setup binds on the application's server. */
    var served: seq<Bound>
    /** Whether the tracing middleware was installed. */
    var traced: bool
    /** The application, once built. */
    var app: Option<AppSettings>

    /** NewMicroservice: the default configuration, no routes, not set up. */
    constructor (name: string, version: string, description: string)
      ensures this.name == name && this.version == version && this.description == description
      ensures config == DefaultServiceConfig() && routes == [] && !isSetup
      ensures served == [] && !traced && app.None?
    {
      this.name := name;
      this.version := version;
      this.description := description;
      config := DefaultServiceConfig();
      routes := [];
      isSetup := false;
      served := [];
      traced := false;
      app := None;
    }

    method WithConfig(c: ServiceConfig) returns (r: Microservice)
      modifies this
      ensures r == this && config == c
      ensures name == old(name) && version == old(version) && description == old(description)
      ensures routes == old(routes) && isSetup == old(isSetup) && served == old(served) && traced == old(traced) && app == old(app)
    {
      config := c;
      r := this;
    }

    /** AddRoute: one more route at the end; returns the same service for chaining. */
    method AddRoute(verb: string, path: string, desc: string, handler: Controllers.HandlerFunc) returns (r: Microservice)
      modifies this
      ensures r == this
      ensures routes == old(routes) + [ServiceRoute(verb, path, desc, handler)]
      ensures name == old(name) && version == old(version) && description == old(description)
      ensures config == old(config) && isSetup == old(isSetup) && served == old(served) && traced == old(traced) && app == old(app)
    {
      routes := routes + [ServiceRoute(verb, path, desc, handler)];
      r := this;
    }

    method Get(path: string, desc: string, handler: Controllers.HandlerFunc) returns (r: Microservice)
      modifies this
      ensures r == this && routes == old(routes) + [ServiceRoute("GET", path, desc, handler)]
      ensures name == old(name) && version == old(version) && description == old(description)
      ensures config == old(config) && isSetup == old(isSetup) && served == old(served) && traced == old(traced) && app == old(app)
    {
      r := AddRoute("GET", path, desc, handler);
    }

    method Post(path: string, desc: string, handler: Controllers.HandlerFunc) returns (r: Microservice)
      modifies this
      ensures r == this && routes == old(routes) + [ServiceRoute("POST", path, desc, handler)]
      ensures name == old(name) && version == old(version) && description == old(description)
      ensures config == old(config) && isSetup == old(isSetup) && served == old(served) && traced == old(traced) && app == old(app)
    {
      r := AddRoute("POST", path, desc, handler);
    }

    method Put(path: string, desc: string, handler: Controllers.HandlerFunc) returns (r: Microservice)
      modifies this
      ensures r == this && routes == old(routes) + [ServiceRoute("PUT", path, desc, handler)]
      ensures name == old(name) && version == old(version) && description == old(description)
      ensures config == old(config) && isSetup == old(isSetup) && served == old(served) && traced == old(traced) && app == old(app)
    {
      r := AddRoute("PUT", path, desc, handler);
    }

    method Patch(path: string, desc: string, handler: Controllers.HandlerFunc) returns (r: Microservice)
      modifies this
      ensures r == this && routes == old(routes) + [ServiceRoute("PATCH", path, desc, handler)]
      ensures name == old(name) && version == old(version) && description == old(description)
      ensures config == old(config) && isSetup == old(isSetup) && served == old(served) && traced == old(traced) && app == old(app)
    {
      r := AddRoute("PATCH", path, desc, handler);
    }

    method Delete(path: string, desc: string, handler: Controllers.HandlerFunc) returns (r: Microservice)
      modifies this
      ensures r == this && routes == old(routes) + [ServiceRoute("DELETE", path, desc, handler)]
      ensures name == old(name) && version == old(version) && description == old(description)
      ensures config == old(config) && isSetup == old(isSetup) && served == old(served) && traced == old(traced) && app == old(app)
    {
      r := AddRoute("DELETE", path, desc, handler);
    }

    /**
     * Setup: nothing once set up.  Otherwise a new application (failing
     * with `appErr` when it cannot be built), tracing when enabled, the
     * health check and metrics endpoints when enabled, then every route in
     * insertion order; only success marks the service set up.
     */
    method Setup(appErr: Option<string>) returns (err: Option<string>)
      modifies this
      ensures routes == old(routes) && config == old(config)
      ensures name == old(name) && version == old(version) && description == old(description)
      ensures old(isSetup) ==> err.None? && isSetup && served == old(served) && traced == old(traced) && app == old(app)
      ensures !old(isSetup) && appErr.Some? ==>
        err == Some("failed to create application: " + appErr.value)
        && !isSetup && served == old(served) && traced == old(traced) && app == old(app)
      ensures !old(isSetup) && appErr.None? ==>
        err.None? && isSetup && served == SetupBindings(config, routes) && traced == config.enableTracing
        && app == Some(SettingsFor(name, version, description, config))
    {
      if isSetup {
        return None;
      }
      if appErr.Some? {
        return Some("failed to create application: " + appErr.value);
      }
      app := Some(SettingsFor(name, version, description, config));
      var bound: seq<Bound> := [];
      traced := config.enableTracing;
      if config.healthCheck {
        bound := bound + [Bound("GET", "/health", Health)];
      }
      if config.metrics {
        bound := bound + [Bound("GET", "/metrics", Metrics)];
      }
      assert bound == Extras(config);
      bound := BindRoutes(bound, routes);
      served := bound;
      isSetup := true;
      err := None;
    }

    /** Start: Setup unless already done, then listen on host:port. */
    method Start(appErr: Option<string>) returns (err: Option<string>, addr: Option<string>)
      modifies this
      ensures routes == old(routes) && config == old(config)
      ensures name == old(name) && version == old(version) && description == old(description)
      ensures old(isSetup) ==> err.None? && served == old(served) && traced == old(traced) && app == old(app)
      ensures !old(isSetup) && appErr.None? ==>
        err.None? && served == SetupBindings(config, routes) && traced == config.enableTracing
        && app == Some(SettingsFor(name, version, description, config))
      ensures !old(isSetup) && appErr.Some? ==> !isSetup && served == old(served) && traced == old(traced) && app == old(app)
      ensures !old(isSetup) && appErr.Some? ==> err == Some("failed to create application: " + appErr.value) && addr.None?
      ensures appErr.None? || old(isSetup) ==> isSetup && addr == Some(ListenAddress(config))
    {
      addr := None;
      err := None;
      if !isSetup {
        err := Setup(appErr);
        if err.Some? {
          return;
        }
      }
      addr := Some(ListenAddress(config));
    }
  }

  /** The address Start listens on: host, a colon and the port in decimal. */
  function ListenAddress(config: ServiceConfig): (r: string)
    ensures HasPrefix(r, config.host + ":")
  {
    config.host + ":" + IntToString(config.port)
  }

  /** The port can be read back from the address. */
  lemma ListenAddressPort(config: ServiceConfig)
    requires config.port >= 0
    ensures var r := ListenAddress(config);
      forall i :: |config.host| + 1 <= i < |r| ==> IsDigit(r[i])
    ensures DigitsValue(ListenAddress(config)[|config.host| + 1..]) == config.port
  {
    var p := IntToString(config.port);
    DigitsValueNatToString(config.port);
    assert ListenAddress(config)[|config.host| + 1..] == p;
  }

  /** After the built-in endpoints, route i is bound at its own place with its own method, path and handler. */
  lemma SetupBindsRoutes(config: ServiceConfig, routes: seq<ServiceRoute>, i: int)
    requires 0 <= i < |routes|
    ensures |Extras(config)| + i < |SetupBindings(config, routes)|
    ensures SetupBindings(config, routes)[|Extras(config)| + i] == Bound(routes[i].verb, routes[i].path, Serve(routes[i].handler))
  {
    var b := SetupBindings(config, routes);
    var rb := RouteBindings(routes);
    var k := |Extras(config)|;
    assert b == Extras(config) + rb;
    assert b[k + i] == rb[i];
    RouteBindingsInOrder(routes, i);
  }

  // --------------------------------------------------------- project layout

  /** filepath.Join of the project directory and a relative path (the paths are taken as already clean). */
  function Under(root: string, rel: string): string
  {
    root + "/" + rel
  }

  lemma UnderInjective(root: string, a: string, b: string)
    requires Under(root, a) == Under(root, b)
    ensures a == b
  {
    assert a == Under(root, a)[|root| + 1..];
    assert b == Under(root, b)[|root| + 1..];
  }

  /** Each relative path joined under `root`. */
  function UnderAll(root: string, rels: seq<string>): (r: seq<string>)
    ensures |r| == |rels|
    ensures forall i :: 0 <= i < |rels| ==> r[i] == Under(root, rels[i])
  {
    seq(|rels|, i requires 0 <= i < |rels| => Under(root, rels[i]))
  }

  /** A joined path is in the list exactly when its relative part is. */
  lemma UnderAllMember(root: string, rels: seq<string>, x: string)
    ensures Under(root, x) in UnderAll(root, rels) <==> x in rels
  {
    var r := UnderAll(root, rels);
    if Under(root, x) in r {
      var i :| 0 <= i < |r| && r[i] == Under(root, x);
      UnderInjective(root, rels[i], x);
    }
  }

  /** The nine directories every project gets, relative to the project. */
  function BaseRels(name: string): (r: seq<string>)
    ensures |r| == 9
  {
    ["api", "api/handlers", "api/middleware", "internal/models", "internal/services", "internal/repositories",
     "pkg/logger", "config", "cmd/" + name]
  }

  /** The directories of the selected features: database and migrations, cache, queue. */
  function OptionalRels(config: ServiceConfig): (r: seq<string>)
    ensures |r| == (if config.withDB then 2 else 0) + (if config.withCache then 1 else 0) + (if config.withQueue then 1 else 0)
  {
    (if config.withDB then ["internal/database", "migrations"] else [])
    + (if config.withCache then ["internal/cache"] else [])
    + (if config.withQueue then ["internal/queue"] else [])
  }

  /**
   * The directories CreateMicroserviceProject creates inside the project
   * directory, in order; the project directory itself is created first.
   */
  function ProjectDirs(config: ServiceConfig): (r: seq<string>)
    ensures |r| == 9 + (if config.withDB then 2 else 0) + (if config.withCache then 1 else 0) + (if config.withQueue then 1 else 0)
    ensures r[..9] == UnderAll(config.name, BaseRels(config.name))
  {
    UnderAll(config.name, BaseRels(config.name) + OptionalRels(config))
  }

  /** No base directory is a feature directory. */
  lemma OptionalNotBase(name: string, rel: string)
    requires rel == "internal/database" || rel == "migrations" || rel == "internal/cache" || rel == "internal/queue"
    ensures rel !in BaseRels(name)
  {
    var base := BaseRels(name);
    forall k | 0 <= k < 9
      ensures base[k] != rel
    {
      if k == 8 {
        assert base[k][0] == 'c' && rel[0] != 'c';
      } else if k == 4 {
        assert |base[k]| != |rel| || (base[k][9] == 's' && rel[9] != 's');
      }
    }
  }

  /** A feature directory is created exactly when it is among the selected features' directories. */
  lemma ProjectDirsOptional(config: ServiceConfig, rel: string)
    requires rel == "internal/database" || rel == "migrations" || rel == "internal/cache" || rel == "internal/queue"
    ensures Under(config.name, rel) in ProjectDirs(config) <==> rel in OptionalRels(config)
  {
    OptionalNotBase(config.name, rel);
    UnderAllMember(config.name, BaseRels(config.name) + OptionalRels(config), rel);
  }

  /** The database brings two directories, the cache and the queue one each. */
  lemma OptionalRelsFeatures(config: ServiceConfig)
    ensures "internal/database" in OptionalRels(config) <==> config.withDB
    ensures "migrations" in OptionalRels(config) <==> config.withDB
    ensures "internal/cache" in OptionalRels(config) <==> config.withCache
    ensures "internal/queue" in OptionalRels(config) <==> config.withQueue
  {
    assert |"internal/database"| == 17 && |"migrations"| == 10 && |"internal/cache"| == 14 && |"internal/queue"| == 14;
    assert "internal/cache"[9] != "internal/queue"[9];
  }

  // ------------------------------------------------------------ config.yaml

  /** Each section of config.yaml: its title line, then its settings. */
  const DatabaseTitle: string := "# Database Configuration\n"
  const CacheTitle: string := "# Cache Configuration\n"
  const QueueTitle: string := "# Queue Configuration\n"
  const AuthTitle: string := "# Authentication Config\n"

  function DatabaseSection(): string
  {
    DatabaseTitle
    + Lines(["database:",
      "  driver: \"sqlite\"",
      "  name: \"flux.db\"",
      "  # For production:",
      "  # driver: \"postgres\"",
      "  # host: \"db\"",
      "  # port: 5432",
      "  # username: \"postgres\"",
      "  # password: \"postgres\"",
      "  # name: \"flux\"",
      "  max_open_conns: 20",
      "  max_idle_conns: 5",
      "  conn_max_life: 300s",
      ""])
  }

  function CacheSection(): string
  {
    CacheTitle
    + Lines(["cache:",
      "  driver: \"redis\"",
      "  host: \"cache\"",
      "  port: 6379",
      "  prefix: \"flux:\"",
      "  ttl: 3600s",
      ""])
  }

  function QueueSection(): string
  {
    QueueTitle
    + Lines(["queue:",
      "  driver: \"redis\"",
      "  host: \"queue\"",
      "  port: 6379",
      "  db: 1",
      ""])
  }

  /** The auth section; its refresh_expiration line ends in a space. */
  function AuthSection(): string
  {
    AuthTitle
    + Lines(["auth:",
      "  jwt:",
      "    secret: \"change-this-to-your-personal-secret-in-prod\"",
      "    expiration: 86400s # 24 hours",
      "    refresh_expiration: 604800s ",
      ""])
  }

  /** The sections are told apart by their third character, the initial of their title. */
  lemma SectionInitials()
    ensures |DatabaseSection()| > 2 && DatabaseSection()[2] == 'D'
    ensures |CacheSection()| > 2 && CacheSection()[2] == 'C'
    ensures |QueueSection()| > 2 && QueueSection()[2] == 'Q'
    ensures |AuthSection()| > 2 && AuthSection()[2] == 'A'
  {
    assert DatabaseTitle[2] == 'D' && CacheTitle[2] == 'C' && QueueTitle[2] == 'Q' && AuthTitle[2] == 'A';
  }

  /** generateAdditionalConfig: the database, cache, queue and auth sections, in that order, each when selected. */
  function AdditionalConfig(config: ServiceConfig): (r: string)
    ensures r == "" <==> !(config.withDB || config.withCache || config.withQueue || config.withAuth)
  {
    SectionInitials();
    (if config.withDB then DatabaseSection() else "")
    + ((if config.withCache then CacheSection() else "")
       + ((if config.withQueue then QueueSection() else "")
          + (if config.withAuth then AuthSection() else "")))
  }

  /** Strips `section` off the front of `text` when it is there, telling whether it was. */
  function TakeSection(text: string, section: string): (bool, string)
  {
    if HasPrefix(text, section) then (true, text[|section|..]) else (false, text)
  }

  /** The features an additional configuration holds, read back from its text. */
  function FeaturesOf(text: string): (bool, bool, bool, bool)
  {
    var (db, t1) := TakeSection(text, DatabaseSection());
    var (cache, t2) := TakeSection(t1, CacheSection());
    var (queue, t3) := TakeSection(t2, QueueSection());
    var (auth, _) := TakeSection(t3, AuthSection());
    (db, cache, queue, auth)
  }

  /** A present section is taken off; an absent one is not mistaken for the text that follows. */
  lemma TakeSectionStep(present: bool, section: string, rest: string)
    requires |section| > 2
    requires |rest| <= 2 || rest[2] != section[2]
    ensures TakeSection((if present then section else "") + rest, section) == (present, rest)
  {
    if present {
      assert (section + rest)[..|section|] == section;
      assert (section + rest)[|section|..] == rest;
    } else {
      assert "" + rest == rest;
      if |section| <= |rest| {
        assert rest[..|section|][2] == rest[2];
      }
    }
  }

  /** The last section is taken off exactly when present. */
  lemma TakeSectionLast(present: bool, section: string)
    requires |section| > 2
    ensures TakeSection(if present then section else "", section) == (present, "")
  {
    if present {
      assert section[..|section|] == section && section[|section|..] == "";
    }
  }

  /** The text gives back exactly the selected features. */
  lemma AdditionalConfigFeatures(config: ServiceConfig)
    ensures FeaturesOf(AdditionalConfig(config)) == (config.withDB, config.withCache, config.withQueue, config.withAuth)
  {
    SectionInitials();
    var c := if config.withCache then CacheSection() else "";
    var q := if config.withQueue then QueueSection() else "";
    var a := if config.withAuth then AuthSection() else "";
    TakeSectionLast(config.withAuth, AuthSection());
    TakeSectionStep(config.withQueue, QueueSection(), a);
    TakeSectionStep(config.withCache, CacheSection(), q + a);
    TakeSectionStep(config.withDB, DatabaseSection(), c + (q + a));
  }

  /** The settings config.yaml opens with: service name and description, and the server on the configured port. */
  function ConfigHead(config: ServiceConfig): string
  {
    "# " + config.name + " Microservice Configuration\n"
    + Lines(["",
      "# Service Settings",
      "service:"])
    + "  name: \"" + config.name + "\"\n"
    + "  version: \"1.0.0\"\n"
    + "  description: \"" + config.description + "\"\n"
    + Lines(["  environment: \"development\"",
      "  debug: true",
      "",
      "# Server Configuration",
      "server:",
      "  host: \"0.0.0.0\""])
    + "  port: " + IntToString(config.port) + "\n"
    + Lines(["  base_path: \"/api\"",
      "  read_timeout: 10s",
      "  write_timeout: 10s",
      "  idle_timeout: 120s",
      ""])
  }

  /** generateMicroserviceConfigFile: the service and server settings, then the selected sections. */
  function ConfigFile(config: ServiceConfig): string
  {
    ConfigHead(config) + (AdditionalConfig(config) + "\n")
  }

  /** config.yaml ends with the selected sections and a newline. */
  lemma ConfigFileSections(config: ServiceConfig)
    ensures HasSuffix(ConfigFile(config), AdditionalConfig(config) + "\n")
  {
    SuffixOfAppend(ConfigHead(config), AdditionalConfig(config) + "\n");
  }

  // ------------------------------------------------------ docker-compose.yml

  /** The list entry mounting named volume `volume`, up to its target. */
  function MountOf(volume: string): string
  {
    "      - " + volume + ":"
  }

  /** A volume line of a service: `volume` mounted at `target`. */
  function Mount(volume: string, target: string): string
  {
    MountOf(volume) + target + "\n"
  }

  lemma MountMounts(volume: string, target: string)
    ensures Contains(Mount(volume, target), MountOf(volume))
  {
    ContainsSelf(MountOf(volume));
    ContainsBefore(MountOf(volume), target, MountOf(volume));
    ContainsBefore(MountOf(volume) + target, "\n", MountOf(volume));
  }

  /** The api service on the configured port, host and container alike. */
  function ApiService(config: ServiceConfig): string
  {
    Lines(["version: '3.8'",
      "",
      "services:",
      "  api:",
      "    build:",
      "      context: .",
      "      dockerfile: Dockerfile",
      "    ports:"])
    + "      - \"" + IntToString(config.port) + ":" + IntToString(config.port) + "\"\n"
    + "    restart: unless-stopped\n"
  }

  /** The db service's lines before its volume, which also make the api service depend on it. */
  const DbServiceHead: string := Lines([
    "    depends_on:",
    "      - db",
    "    environment:",
    "      - DB_HOST=db",
    "      - DB_PORT=5432",
    "      - DB_USER=postgres",
    "      - DB_PASSWORD=postgres",
    "      - DB_NAME=flux",
    "",
    "  db:",
    "    image: postgres:14-alpine",
    "    volumes:"])
  const DbServiceTail: string := Lines([
    "    environment:",
    "      - POSTGRES_PASSWORD=postgres",
    "      - POSTGRES_USER=postgres",
    "      - POSTGRES_DB=flux",
    "    ports:",
    "      - \"5432:5432\""])
  const CacheServiceHead: string := Lines([
    "",
    "  cache:",
    "    image: redis:7-alpine",
    "    ports:",
    "      - \"6379:6379\"",
    "    volumes:"])
  const QueueServiceHead: string := Lines([
    "  queue:",
    "    image: redis:alpine",
    "    ports:",
    "      - \"6379:6379\"",
    "    command: redis-server --appendonly yes",
    "    volumes:"])
  const QueueServiceTail: string := Lines([
    "    restart: unless-stopped",
    ""])

  function DbService(): string
  {
    DbServiceHead + Mount("postgres-data", "/var/lib/postgresql/data") + DbServiceTail
  }

  function CacheService(): string
  {
    CacheServiceHead + Mount("redis-data", "/data")
  }

  function QueueService(): string
  {
    QueueServiceHead + Mount("queue-data", "/data") + QueueServiceTail
  }

  /** The services block: the api service, then db, cache and queue as selected. */
  function ComposeServices(config: ServiceConfig): string
  {
    ApiService(config)
    + (if config.withDB then DbService() else "")
    + (if config.withCache then CacheService() else "")
    + (if config.withQueue then QueueService() else "")
  }

  /** The named volumes the selected services mount. */
  function UsedVolumes(config: ServiceConfig): set<string>
  {
    (if config.withDB then {"postgres-data"} else {})
    + (if config.withCache then {"redis-data"} else {})
    + (if config.withQueue then {"queue-data"} else {})
  }

  lemma DbServiceMounts()
    ensures Contains(DbService(), MountOf("postgres-data"))
  {
    var w := MountOf("postgres-data");
    var m := Mount("postgres-data", "/var/lib/postgresql/data");
    MountMounts("postgres-data", "/var/lib/postgresql/data");
    ContainsAfter(DbServiceHead, m, w);
    ContainsBefore(DbServiceHead + m, DbServiceTail, w);
  }

  lemma QueueServiceMounts()
    ensures Contains(QueueService(), MountOf("queue-data"))
  {
    var w := MountOf("queue-data");
    var m := Mount("queue-data", "/data");
    MountMounts("queue-data", "/data");
    ContainsAfter(QueueServiceHead, m, w);
    ContainsBefore(QueueServiceHead + m, QueueServiceTail, w);
  }

  lemma VolumeNamesDistinct()
    ensures "postgres-data" != "redis-data" && "postgres-data" != "queue-data" && "redis-data" != "queue-data"
  {
    assert |"postgres-data"| == 13 && |"redis-data"| == 10 && "redis-data"[0] != "queue-data"[0];
  }

  lemma PostgresMounted(config: ServiceConfig)
    requires config.withDB
    ensures Contains(ComposeServices(config), MountOf("postgres-data"))
  {
    var api := ApiService(config);
    var db := DbService();
    var cache := if config.withCache then CacheService() else "";
    var queue := if config.withQueue then QueueService() else "";
    var w := MountOf("postgres-data");
    DbServiceMounts();
    ContainsAfter(api, db, w);
    ContainsBefore(api + db, cache, w);
    ContainsBefore(api + db + cache, queue, w);
  }

  lemma RedisMounted(config: ServiceConfig)
    requires config.withCache
    ensures Contains(ComposeServices(config), MountOf("redis-data"))
  {
    var api := ApiService(config);
    var db := if config.withDB then DbService() else "";
    var cache := CacheService();
    var queue := if config.withQueue then QueueService() else "";
    var w := MountOf("redis-data");
    MountMounts("redis-data", "/data");
    ContainsAfter(CacheServiceHead, Mount("redis-data", "/data"), w);
    ContainsAfter(api + db, cache, w);
    ContainsBefore(api + db + cache, queue, w);
  }

  lemma QueueMounted(config: ServiceConfig)
    requires config.withQueue
    ensures Contains(ComposeServices(config), MountOf("queue-data"))
  {
    var api := ApiService(config);
    var db := if config.withDB then DbService() else "";
    var cache := if config.withCache then CacheService() else "";
    QueueServiceMounts();
    ContainsAfter(api + db + cache, QueueService(), MountOf("queue-data"));
  }

  /** Each used volume is mounted in the services block. */
  lemma ComposeServicesMount(config: ServiceConfig, v: string)
    requires v in UsedVolumes(config)
    ensures Contains(ComposeServices(config), MountOf(v))
  {
    VolumeNamesDistinct();
    if v == "postgres-data" {
      PostgresMounted(config);
      assert MountOf(v) == MountOf("postgres-data");
    } else if v == "redis-data" {
      RedisMounted(config);
      assert MountOf(v) == MountOf("redis-data");
    } else {
      assert v == "queue-data" && config.withQueue;
      QueueMounted(config);
      assert MountOf(v) == MountOf("queue-data");
    }
  }

  /** The declaration of a named volume in the top-level volumes block. */
  function VolumeEntry(volume: string): string
  {
    "\n  " + volume + ":"
  }

  function VolumeEntries(names: seq<string>): string
  {
    if names == [] then "" else VolumeEntries(names[..|names| - 1]) + VolumeEntry(names[|names| - 1])
  }

  /** The top-level volumes block declaring `names`; nothing without names. */
  function VolumesBlock(names: seq<string>): (r: string)
    ensures r == "" <==> names == []
  {
    if names == [] then "" else "\nvolumes:" + VolumeEntries(names)
  }

  /** The volumes the generator declares: postgres-data with a database, redis-data with a cache. */
  function DeclaredVolumes(config: ServiceConfig): (r: seq<string>)
    ensures forall v :: v in r ==> (v == "postgres-data" && config.withDB) || (v == "redis-data" && config.withCache)
  {
    (if config.withDB then ["postgres-data"] else []) + (if config.withCache then ["redis-data"] else [])
  }

  /** generateDockerCompose's volumes text as written: nothing unless there is a database or a cache. */
  function ComposeVolumes(config: ServiceConfig): (r: string)
    ensures r == "" <==> !config.withDB && !config.withCache
  {
    if !config.withDB && !config.withCache then ""
    else
      "\nvolumes:" + (if config.withDB then VolumeEntry("postgres-data") else "")
      + (if config.withCache then VolumeEntry("redis-data") else "")
  }

  /** The volumes text is the block declaring DeclaredVolumes. */
  lemma ComposeVolumesDeclare(config: ServiceConfig)
    ensures ComposeVolumes(config) == VolumesBlock(DeclaredVolumes(config))
  {
    var names := DeclaredVolumes(config);
    var p := VolumeEntry("postgres-data");
    var c := VolumeEntry("redis-data");
    if config.withDB && config.withCache {
      assert names == ["postgres-data", "redis-data"];
      assert names[..1] == ["postgres-data"] && names[..1][..0] == [];
      assert VolumeEntries(names[..1]) == "" + p;
      assert VolumeEntries(names) == ("" + p) + c;
      assert "" + p == p;
    } else if config.withDB {
      assert names == ["postgres-data"] && names[..0] == [];
      assert VolumeEntries(names) == "" + p && "" + p == p;
      assert ComposeVolumes(config) == "\nvolumes:" + p + "";
    } else if config.withCache {
      assert names == ["redis-data"] && names[..0] == [];
      assert VolumeEntries(names) == "" + c && "" + c == c;
      assert ComposeVolumes(config) == "\nvolumes:" + "" + c;
    }
  }

  /** generateDockerCompose as written: the services, then the volumes text. */
  function DockerComposeAsWritten(config: ServiceConfig): string
  {
    ComposeServices(config) + ComposeVolumes(config)
  }

  /** With a queue, the services mount queue-data, which the compose file does not declare. */
  lemma QueueVolumeUndeclared(config: ServiceConfig)
    requires config.withQueue
    ensures "queue-data" in UsedVolumes(config)
    ensures Contains(ComposeServices(config), MountOf("queue-data"))
    ensures "queue-data" !in DeclaredVolumes(config)
    ensures DockerComposeAsWritten(config) == ComposeServices(config) + VolumesBlock(DeclaredVolumes(config))
  {
    VolumeNamesDistinct();
    ComposeServicesMount(config, "queue-data");
    ComposeVolumesDeclare(config);
  }

  /** The volumes the compose file should declare: every volume a selected service mounts, queue-data included. */
  function DeclaredVolumesFixed(config: ServiceConfig): (r: seq<string>)
    ensures forall v :: v in r <==> v in UsedVolumes(config)
  {
    DeclaredVolumes(config) + (if config.withQueue then ["queue-data"] else [])
  }

  /** The compose file with every mounted volume declared. */
  function DockerCompose(config: ServiceConfig): string
  {
    ComposeServices(config) + VolumesBlock(DeclaredVolumesFixed(config))
  }

  /** Each declared name is in the volumes block. */
  lemma {:induction false} VolumeEntriesDeclare(names: seq<string>, v: string)
    requires v in names
    ensures Contains(VolumeEntries(names), VolumeEntry(v))
    decreases |names|
  {
    var init := names[..|names| - 1];
    var last := names[|names| - 1];
    if last == v {
      ContainsSelf(VolumeEntry(v));
      ContainsAfter(VolumeEntries(init), VolumeEntry(last), VolumeEntry(v));
    } else {
      assert v in init by {
        var k :| 0 <= k < |names| && names[k] == v;
        assert init[k] == v;
      }
      VolumeEntriesDeclare(init, v);
      ContainsBefore(VolumeEntries(init), VolumeEntry(last), VolumeEntry(v));
    }
  }

  /** Every volume a service mounts is declared in the corrected compose file. */
  lemma DockerComposeDeclares(config: ServiceConfig, v: string)
    requires v in UsedVolumes(config)
    ensures Contains(ComposeServices(config), MountOf(v))
    ensures Contains(DockerCompose(config), VolumeEntry(v))
  {
    ComposeServicesMount(config, v);
    var names := DeclaredVolumesFixed(config);
    VolumeEntriesDeclare(names, v);
    ContainsAfter("\nvolumes:", VolumeEntries(names), VolumeEntry(v));
    ContainsAfter(ComposeServices(config), VolumesBlock(names), VolumeEntry(v));
  }

  // ------------------------------------------------------------ Dockerfile

  /** The Dockerfile line that builds the service's command. */
  function BuildLine(name: string): string
  {
    "RUN CGO_ENABLED=0 GOOS=linux go build -o service ./cmd/" + name + "\n"
  }

  /** The Dockerfile line that exposes the port. */
  function ExposeLine(port: int): string
  {
    "EXPOSE " + IntToString(port) + "\n"
  }

  /** The build stage up to the build command. */
  const DockerBuildStage: string := Lines(["# Build stage",
    "FROM golang:1.23-alpine AS builder",
    "",
    "WORKDIR /app",
    "",
    "COPY go.mod go.sum ./",
    "RUN go mod download",
    "",
    "COPY . ."])

  /** The final stage up to the EXPOSE line. */
  const DockerFinalStage: string := Lines(["",
    "# Final stage",
    "FROM alpine:latest",
    "",
    "WORKDIR /app",
    "",
    "COPY --from=builder /app/service .",
    "COPY --from=builder /app/config ./config",
    "",
    "RUN chmod +x service",
    ""])

  const DockerEntrypoint: string := Lines(["",
    "ENTRYPOINT [\"./service\"]"])

  /** generateDockerfile: a two-stage build of ./cmd/<name> that exposes the configured port. */
  function Dockerfile(config: ServiceConfig): string
  {
    DockerBuildStage + BuildLine(config.name) + DockerFinalStage + ExposeLine(config.port) + DockerEntrypoint
  }

  /** The image builds the service's own command directory and exposes the port it listens on. */
  lemma DockerfileBuildsService(config: ServiceConfig)
    ensures Contains(Dockerfile(config), BuildLine(config.name))
    ensures Contains(Dockerfile(config), ExposeLine(config.port))
  {
    var l1, l2, l3 := DockerBuildStage, DockerFinalStage, DockerEntrypoint;
    var b := BuildLine(config.name);
    var e := ExposeLine(config.port);
    ContainsSelf(b);
    ContainsAfter(l1, b, b);
    ContainsBefore(l1 + b, l2, b);
    ContainsBefore(l1 + b + l2, e, b);
    ContainsBefore(l1 + b + l2 + e, l3, b);
    ContainsSelf(e);
    ContainsAfter(l1 + b + l2, e, e);
    ContainsBefore(l1 + b + l2 + e, l3, e);
  }

  // -------------------------------------------------------------- go.mod

  const GoModRequire: string := Lines([
    "",
    "go 1.20",
    "",
    "require (",
    "\tgithub.com/Fluxgo/flux v0.1.5",
    "\tgithub.com/gofiber/fiber/v2 v2.52.6",
    ")"])

  /** The module path of a generated project. */
  function ProjectModule(name: string): string
  {
    "github.com/" + name
  }

  /** The go.mod written for the project: its module line, then the Go version and the requirements. */
  function GoMod(name: string): string
  {
    "module " + ProjectModule(name) + "\n" + GoModRequire
  }

  lemma GithubPrefixNoSpace()
    ensures forall i :: 0 <= i < |"github.com/"| ==> !IsSpace("github.com/"[i])
  {
    assert "github.com/" == ['g', 'i', 't', 'h', 'u', 'b', '.', 'c', 'o', 'm', '/'];
  }

  /** Reading the generated go.mod's module name, as the generators do, gives the project's module path. */
  lemma GoModModuleName(name: string)
    requires forall i :: 0 <= i < |name| ==> !IsSpace(name[i])
    ensures Scaffold.ModuleName(Some(GoMod(name))) == ProjectModule(name)
  {
    var m := ProjectModule(name);
    GithubPrefixNoSpace();
    forall i | 0 <= i < |m|
      ensures !IsSpace(m[i])
    {
      if i >= 11 {
        assert m[i] == name[i - 11];
      } else {
        assert m[i] == "github.com/"[i];
      }
    }
    Scaffold.ModuleNameOf(m, GoModRequire);
  }

  // ------------------------------------------------- CreateMicroserviceProject

  /**
   * What CreateMicroserviceProject creates for a configuration: its
   * directories and the text of config.yaml, Dockerfile, docker-compose.yml
   * (as generateDockerCompose writes it) and go.mod.
   */
  datatype ProjectPlan = ProjectPlan(config: ServiceConfig)
  {
    function Dirs(): seq<string> { ProjectDirs(config) }
    function ConfigYaml(): string { ConfigFile(config) }
    function DockerfileText(): string { Dockerfile(config) }
    function ComposeYaml(): string { DockerComposeAsWritten(config) }
    function GoModText(): string { GoMod(config.name) }
  }

  /** A nil configuration means the default one. */
  function EffectiveConfig(config: Option<ServiceConfig>): ServiceConfig
  {
    if config.None? then DefaultServiceConfig() else config.value
  }

  /** CreateMicroserviceProject: an empty name is refused before anything is created. */
  function CreateMicroserviceProject(config: Option<ServiceConfig>): (r: Result<ProjectPlan, string>)
    ensures EffectiveConfig(config).name == "" <==> r.Err?
    ensures r.Err? ==> r.error == "microservice name cannot be empty"
    ensures r.Ok? ==> config.Some? && r.value.config == config.value
  {
    var c := EffectiveConfig(config);
    if c.name == "" then Err("microservice name cannot be empty")
    else Ok(ProjectPlan(c))
  }

  /** config.yaml ends with the selected sections and a newline. */
  lemma ProjectConfigYaml(c: ServiceConfig)
    ensures var r := CreateMicroserviceProject(Some(c));
      r.Ok? ==> HasSuffix(r.value.ConfigYaml(), AdditionalConfig(c) + "\n")
  {
    ConfigFileSections(c);
  }

  /** The Dockerfile builds the service's own command and exposes its port. */
  lemma ProjectDockerfile(c: ServiceConfig)
    ensures var r := CreateMicroserviceProject(Some(c));
      r.Ok? ==> Contains(r.value.DockerfileText(), BuildLine(c.name)) && Contains(r.value.DockerfileText(), ExposeLine(c.port))
  {
    DockerfileBuildsService(c);
  }

  /**
   * docker-compose.yml mounts every volume its services use but declares
   * only postgres-data and redis-data, so a queue's queue-data is undeclared.
   */
  lemma ProjectCompose(c: ServiceConfig)
    ensures var r := CreateMicroserviceProject(Some(c));
      r.Ok? ==>
        && r.value.ComposeYaml() == ComposeServices(c) + VolumesBlock(DeclaredVolumes(c))
        && (forall v :: v in UsedVolumes(c) ==> Contains(r.value.ComposeYaml(), MountOf(v)))
        && (c.withQueue ==> "queue-data" !in DeclaredVolumes(c))
  {
    ComposeAsWrittenMounts(c);
  }

  /** The project's go.mod declares the module github.com/<name>, as the generators read it back. */
  lemma ProjectGoMod(c: ServiceConfig)
    requires forall i :: 0 <= i < |c.name| ==> !IsSpace(c.name[i])
    ensures var r := CreateMicroserviceProject(Some(c));
      r.Ok? ==> Scaffold.ModuleName(Some(r.value.GoModText())) == ProjectModule(c.name)
  {
    GoModModuleName(c.name);
  }

  /** The compose file as written mounts every volume its services use, and declares only DeclaredVolumes. */
  lemma ComposeAsWrittenMounts(c: ServiceConfig)
    ensures DockerComposeAsWritten(c) == ComposeServices(c) + VolumesBlock(DeclaredVolumes(c))
    ensures forall v :: v in UsedVolumes(c) ==> Contains(DockerComposeAsWritten(c), MountOf(v))
    ensures c.withQueue ==> "queue-data" !in DeclaredVolumes(c)
  {
    ComposeVolumesDeclare(c);
    forall v | v in UsedVolumes(c)
      ensures Contains(DockerComposeAsWritten(c), MountOf(v))
    {
      ComposeServicesMount(c, v);
      ContainsBefore(ComposeServices(c), ComposeVolumes(c), MountOf(v));
    }
    if c.withQueue {
      QueueVolumeUndeclared(c);
    }
  }

  /** The default configuration has no name, so a nil configuration is always refused. */
  lemma NilConfigRefused()
    ensures CreateMicroserviceProject(None) == Err("microservice name cannot be empty")
  {
  }
}
