/**
 * The database set-up and migration bookkeeping of pkg/flux/database.go.
 *
 * NewDatabase fills in defaults in the caller's configuration and picks a
 * driver; opening the connection and tuning the pool are left out.  The
 * migrations table is an abstract store of applied names in insertion
 * order (`Database.rows`), and a migration's Up and Down are functions of
 * that store returning an optional error.
 */
module Database {
  import opened Wrappers
  import opened Str

  // ------------------------------------------------------------ configuration

  /** time.Duration values in nanoseconds. */
  const Millisecond: int := 1_000_000
  const Hour: int := 3_600_000_000_000

  /** gorm's logger.LogLevel: Silent 1, Error 2, Warn 3, Info 4. */
  const GormInfo: int := 4

  /** The fields of a DatabaseConfig; durations in nanoseconds. */
  datatype ConfigValue = ConfigValue(
    driver: string, name: string, host: string, port: int, username: string, password: string,
    sslMode: string, charset: string, timezone: string,
    maxOpenConns: int, maxIdleConns: int, connMaxLife: int, slowThreshold: int, logLevel: int, debug: bool)

  /** DefaultDatabaseConfig: a SQLite file "flux.db" with the default charset, timezone and pool. */
  const DefaultConfig: ConfigValue :=
    ConfigValue("sqlite", "flux.db", "localhost", 3306, "", "", "", "utf8mb4", "Local",
                100, 10, Hour, 200 * Millisecond, GormInfo, false)

  /** The defaults NewDatabase fills in: SlowThreshold, Charset and Timezone when they are zero. */
  function WithDefaults(c: ConfigValue): (r: ConfigValue)
    ensures r.slowThreshold == (if c.slowThreshold == 0 then 200 * Millisecond else c.slowThreshold)
    ensures r.charset == (if c.charset == "" then "utf8mb4" else c.charset)
    ensures r.timezone == (if c.timezone == "" then "Local" else c.timezone)
    ensures r.(slowThreshold := c.slowThreshold, charset := c.charset, timezone := c.timezone) == c
  {
    c.(slowThreshold := if c.slowThreshold == 0 then 200 * Millisecond else c.slowThreshold,
       charset := if c.charset == "" then "utf8mb4" else c.charset,
       timezone := if c.timezone == "" then "Local" else c.timezone)
  }

  /** Filling in the defaults twice fills in nothing more, and the default configuration needs none. */
  lemma WithDefaultsIdempotent(c: ConfigValue)
    ensures WithDefaults(WithDefaults(c)) == WithDefaults(c)
    ensures WithDefaults(DefaultConfig) == DefaultConfig
  {
  }

  /** The *DatabaseConfig the caller passes and NewDatabase updates. */
  class DatabaseConfig {
    var driver: string
    var name: string
    var host: string
    var port: int
    var username: string
    var password: string
    var sslMode: string
    var charset: string
    var timezone: string
    var maxOpenConns: int
    var maxIdleConns: int
    var connMaxLife: int
    var slowThreshold: int
    var logLevel: int
    var debug: bool

    /** A configuration holding the given fields, as a caller's struct literal. */
    constructor (v: ConfigValue)
      ensures Value() == v
    {
      driver, name, host, port := v.driver, v.name, v.host, v.port;
      username, password, sslMode := v.username, v.password, v.sslMode;
      charset, timezone := v.charset, v.timezone;
      maxOpenConns, maxIdleConns, connMaxLife := v.maxOpenConns, v.maxIdleConns, v.connMaxLife;
      slowThreshold, logLevel, debug := v.slowThreshold, v.logLevel, v.debug;
    }

    function Value(): ConfigValue
      reads this
    {
      ConfigValue(driver, name, host, port, username, password, sslMode, charset, timezone,
                  maxOpenConns, maxIdleConns, connMaxLife, slowThreshold, logLevel, debug)
    }

    /** The three assignments NewDatabase makes to the caller's configuration. */
    method FillDefaults()
      modifies this
      ensures Value() == WithDefaults(old(Value()))
    {
      if slowThreshold == 0 {
        slowThreshold := 200 * Millisecond;
      }
      if charset == "" {
        charset := "utf8mb4";
      }
      if timezone == "" {
        timezone := "Local";
      }
    }
  }

  /** The dialector NewDatabase's switch picks for a configuration. */
  function Dialect(c: ConfigValue): (r: Result<Dialector, string>)
  {
    DialectFor(c.driver, c.name, c.host, c.port, c.username, c.password, c.sslMode, c.charset, c.timezone)
  }

  /** The gorm dialector and the connection string it is opened with. */
  datatype Dialector = Sqlite(path: string) | MySql(dsn: string) | Postgres(dsn: string) | SqlServer(dsn: string)

  function MySqlDsn(username: string, password: string, host: string, port: int, name: string,
                    charset: string, timezone: string): string
  {
    username + ":" + password + "@tcp(" + host + ":" + IntToString(port) + ")/" + name
    + "?charset=" + charset + "&parseTime=True&loc=" + timezone
  }

  /** The sslmode Postgres is given: the configured one, "disable" when none is. */
  function SslModeOrDefault(sslMode: string): (r: string)
    ensures r != ""
    ensures sslMode != "" ==> r == sslMode
  {
    if sslMode == "" then "disable" else sslMode
  }

  function PostgresDsn(host: string, port: int, username: string, password: string, name: string,
                       sslMode: string, timezone: string): string
  {
    "host=" + host + " port=" + IntToString(port) + " user=" + username + " password=" + password
    + " dbname=" + name + " sslmode=" + SslModeOrDefault(sslMode) + " TimeZone=" + timezone
  }

  function SqlServerDsn(username: string, password: string, host: string, port: int, name: string): string
  {
    "sqlserver://" + username + ":" + password + "@" + host + ":" + IntToString(port) + "?database=" + name
  }

  predicate SupportedDriver(driver: string)
  {
    driver == "sqlite" || driver == "mysql" || driver == "postgres" || driver == "sqlserver"
  }

  function DialectFor(driver: string, name: string, host: string, port: int, username: string, password: string,
                      sslMode: string, charset: string, timezone: string): (r: Result<Dialector, string>)
    ensures r.Err? <==> !SupportedDriver(driver)
    ensures r.Err? ==> r.error == "unsupported database driver: " + driver
    ensures driver == "sqlite" ==> r == Ok(Sqlite(name))
  {
    if driver == "sqlite" then Ok(Sqlite(name))
    else if driver == "mysql" then Ok(MySql(MySqlDsn(username, password, host, port, name, charset, timezone)))
    else if driver == "postgres" then Ok(Postgres(PostgresDsn(host, port, username, password, name, sslMode, timezone)))
    else if driver == "sqlserver" then Ok(SqlServer(SqlServerDsn(username, password, host, port, name)))
    else Err("unsupported database driver: " + driver)
  }

  /** Postgres is always given an sslmode, "disable" when none is configured. */
  lemma PostgresSslMode(host: string, port: int, username: string, password: string, name: string,
                        sslMode: string, charset: string, timezone: string)
    ensures var r := DialectFor("postgres", name, host, port, username, password, sslMode, charset, timezone);
      r.Ok? && r.value.Postgres?
      && Contains(r.value.dsn, " sslmode=" + (if sslMode == "" then "disable" else sslMode) + " ")
  {
    var pre := "host=" + host + " port=" + IntToString(port) + " user=" + username + " password=" + password
      + " dbname=" + name;
    var mid := " sslmode=" + SslModeOrDefault(sslMode) + " ";
    assert PostgresDsn(host, port, username, password, name, sslMode, timezone) == pre + mid + ("TimeZone=" + timezone);
    ContainsInfix(pre, mid, "TimeZone=" + timezone);
  }

  /** The settings the gorm connection is opened with. */
  datatype Connection = Connection(dialector: Dialector, slowThreshold: int, logLevel: int)

  /** gorm's log level: the configured one, Info when it is zero. */
  function GormLogLevel(logLevel: int): (r: int)
    ensures r != 0
    ensures logLevel != 0 ==> r == logLevel
  {
    if logLevel == 0 then GormInfo else logLevel
  }

  /** What NewDatabase reports for a configuration whose defaults are filled in. */
  function Open(c: ConfigValue, mkdirErr: Option<string>): (r: Result<Connection, string>)
    ensures c.driver == "sqlite" && mkdirErr.Some? ==>
      r == Err("failed to create database directory: " + mkdirErr.value)
    ensures !(c.driver == "sqlite" && mkdirErr.Some?) ==>
      (r.Err? <==> !SupportedDriver(c.driver))
      && (r.Err? ==> r.error == "unsupported database driver: " + c.driver)
      && (r.Ok? ==> r.value.dialector == Dialect(c).value && r.value.slowThreshold == c.slowThreshold)
    ensures r.Ok? ==> r.value.logLevel != 0 && (c.logLevel != 0 ==> r.value.logLevel == c.logLevel)
  {
    if c.driver == "sqlite" && mkdirErr.Some? then Err("failed to create database directory: " + mkdirErr.value)
    else match Dialect(c)
      case Err(e) => Err(e)
      case Ok(d) => Ok(Connection(d, c.slowThreshold, GormLogLevel(c.logLevel)))
  }

  /**
   * NewDatabase up to the driver switch: a nil configuration becomes the
   * default one, and missing SlowThreshold, Charset and Timezone are filled
   * in the caller's own configuration.  `mkdirErr` is what creating the
   * SQLite file's directory reports.
   */
  method NewDatabase(config: DatabaseConfig?, mkdirErr: Option<string>) returns (cfg: DatabaseConfig, r: Result<Connection, string>)
    modifies config
    ensures config == null ==> fresh(cfg) && cfg.Value() == DefaultConfig
    ensures config != null ==> cfg == config && cfg.Value() == WithDefaults(old(config.Value()))
    ensures r == Open(cfg.Value(), mkdirErr)
  {
    if config == null {
      cfg := new DatabaseConfig(DefaultConfig);
    } else {
      cfg := config;
    }
    cfg.FillDefaults();
    if cfg.driver == "sqlite" && mkdirErr.Some? {
      return cfg, Err("failed to create database directory: " + mkdirErr.value);
    }
    var logLevel := cfg.logLevel;
    if logLevel == 0 {
      logLevel := GormInfo;
    }
    var d := Dialect(cfg.Value());
    if d.Err? {
      return cfg, Err(d.error);
    }
    r := Ok(Connection(d.value, cfg.slowThreshold, logLevel));
  }

  // --------------------------------------------------------------- migrations

  /** A named migration; Up and Down see the store and report an optional error. */
  datatype Migration = Migration(name: string, up: seq<string> -> Option<string>, down: seq<string> -> Option<string>)

  /** The migrations table: applied names in the order they were inserted. */
  class Database {
    var rows: seq<string>

    constructor (rows: seq<string>)
      ensures this.rows == rows
    {
      this.rows := rows;
    }
  }

  function Names(rows: seq<string>): set<string>
  {
    set n | n in rows
  }

  function ApplyFailure(name: string, err: string): string
  {
    "failed to apply migration '" + name + "': " + err
  }

  function RollbackFailure(name: string, err: string): string
  {
    "failed to roll back migration '" + name + "': " + err
  }

  function NotFound(name: string): string
  {
    "migration '" + name + "' not found"
  }

  /**
   * Migrate's loop from the front: every migration whose name was not
   * applied at the start runs Up and, when that succeeds, has its name
   * recorded; the first failure stops the loop.
   */
  function RunUps(ms: seq<Migration>, done: set<string>, rows: seq<string>): (seq<string>, Option<string>)
  {
    if ms == [] then (rows, None)
    else if ms[0].name in done then RunUps(ms[1..], done, rows)
    else match ms[0].up(rows)
      case Some(e) => (rows, Some(ApplyFailure(ms[0].name, e)))
      case None => RunUps(ms[1..], done, rows + [ms[0].name])
  }

  /** The names of the migrations not applied at the start, in declaration order. */
  function Pending(ms: seq<Migration>, done: set<string>): (r: seq<string>)
    ensures |r| <= |ms|
    ensures forall n :: n in r ==> n !in done
  {
    if ms == [] then [] else (if ms[0].name in done then [] else [ms[0].name]) + Pending(ms[1..], done)
  }

  /** Where Migrate's loop stops: the index of the failing migration, or the number of migrations. */
  function StopAt(ms: seq<Migration>, done: set<string>, rows: seq<string>): (k: nat)
    ensures k <= |ms|
  {
    if ms == [] then 0
    else if ms[0].name in done then 1 + StopAt(ms[1..], done, rows)
    else if ms[0].up(rows).Some? then 0
    else 1 + StopAt(ms[1..], done, rows + [ms[0].name])
  }

  /**
   * What Migrate does to the store: it appends exactly the names pending
   * before the migration it stops at, and it fails exactly when it stops
   * early, at a pending migration whose Up fails, with an error naming it.
   */
  lemma {:induction false} RunUpsOutcome(ms: seq<Migration>, done: set<string>, rows: seq<string>)
    ensures var k := StopAt(ms, done, rows);
      RunUps(ms, done, rows).0 == rows + Pending(ms[..k], done)
      && (RunUps(ms, done, rows).1.None? <==> k == |ms|)
    ensures var k := StopAt(ms, done, rows);
      var after := RunUps(ms, done, rows).0;
      k < |ms| ==> (ms[k].name !in done && ms[k].up(after).Some?
        && RunUps(ms, done, rows).1 == Some(ApplyFailure(ms[k].name, ms[k].up(after).value)))
    decreases |ms|
  {
    if ms != [] {
      var m := ms[0];
      if m.name in done {
        RunUpsOutcome(ms[1..], done, rows);
        var k := StopAt(ms[1..], done, rows);
        assert ms[..k + 1][1..] == ms[1..][..k];
        assert Pending(ms[..k + 1], done) == Pending(ms[1..][..k], done);
      } else if m.up(rows).Some? {
        assert ms[..0] == [];
      } else {
        RunUpsOutcome(ms[1..], done, rows + [m.name]);
        var k := StopAt(ms[1..], done, rows + [m.name]);
        assert ms[..k + 1][1..] == ms[1..][..k];
        assert Pending(ms[..k + 1], done) == [m.name] + Pending(ms[1..][..k], done);
        AppendAssoc(rows, [m.name], Pending(ms[1..][..k], done));
      }
    }
  }

  /** On success Migrate has appended every pending name, in declaration order. */
  lemma MigrateSucceeded(ms: seq<Migration>, done: set<string>, rows: seq<string>)
    requires RunUps(ms, done, rows).1.None?
    ensures RunUps(ms, done, rows).0 == rows + Pending(ms, done)
  {
    RunUpsOutcome(ms, done, rows);
    assert ms[..|ms|] == ms;
  }

  /** Every registered name is applied at the start or pending. */
  lemma {:induction false} PendingCovers(ms: seq<Migration>, done: set<string>, i: int)
    requires 0 <= i < |ms|
    ensures ms[i].name in done || ms[i].name in Pending(ms, done)
    decreases |ms|
  {
    if i > 0 {
      PendingCovers(ms[1..], done, i - 1);
    }
  }

  /** With every name already applied, Migrate runs nothing and succeeds. */
  lemma {:induction false} RunUpsAllDone(ms: seq<Migration>, done: set<string>, rows: seq<string>)
    requires forall i :: 0 <= i < |ms| ==> ms[i].name in done
    ensures RunUps(ms, done, rows) == (rows, None)
    decreases |ms|
  {
    if ms != [] {
      RunUpsAllDone(ms[1..], done, rows);
    }
  }

  /** After a successful Migrate, a second Migrate applies nothing. */
  lemma MigrateTwice(ms: seq<Migration>, rows: seq<string>)
    requires RunUps(ms, Names(rows), rows).1.None?
    ensures var after := RunUps(ms, Names(rows), rows).0;
      RunUps(ms, Names(after), after) == (after, None)
  {
    MigrateSucceeded(ms, Names(rows), rows);
    var after := RunUps(ms, Names(rows), rows).0;
    forall i | 0 <= i < |ms|
      ensures ms[i].name in Names(after)
    {
      PendingCovers(ms, Names(rows), i);
    }
    RunUpsAllDone(ms, Names(after), after);
  }

  /** Rollback's registry: each name maps to the last migration declared with it. */
  function RegistryUpTo(ms: seq<Migration>, n: nat): (r: map<string, Migration>)
    requires n <= |ms|
    ensures forall i :: 0 <= i < n ==> ms[i].name in r
  {
    if n == 0 then map[] else RegistryUpTo(ms, n - 1)[ms[n - 1].name := ms[n - 1]]
  }

  /** ORDER BY id DESC LIMIT steps: the `steps` newest names, newest first. */
  function Newest(rows: seq<string>, steps: nat): (r: seq<string>)
    ensures |r| == if steps < |rows| then steps else |rows|
    ensures forall n :: n in r ==> n in rows
  {
    if steps == 0 || rows == [] then []
    else [rows[|rows| - 1]] + Newest(rows[..|rows| - 1], steps - 1)
  }

  /** DELETE FROM migrations WHERE name = ?: every row with that name goes. */
  function RemoveName(rows: seq<string>, n: string): (r: seq<string>)
    ensures n !in r
    ensures forall x :: x in r <==> x in rows && x != n
  {
    if rows == [] then []
    else RemoveName(rows[..|rows| - 1], n) + (if rows[|rows| - 1] == n then [] else [rows[|rows| - 1]])
  }

  /**
   * Rollback's loop from the front: an unregistered name aborts, a failing
   * Down aborts, and otherwise the name's rows are deleted.
   */
  function RunDowns(names: seq<string>, registry: map<string, Migration>, rows: seq<string>): (seq<string>, Option<string>)
  {
    if names == [] then (rows, None)
    else if names[0] !in registry then (rows, Some(NotFound(names[0])))
    else match registry[names[0]].down(rows)
      case Some(e) => (rows, Some(RollbackFailure(names[0], e)))
      case None => RunDowns(names[1..], registry, RemoveName(rows, names[0]))
  }

  predicate Distinct(rows: seq<string>)
  {
    forall i, j :: 0 <= i < j < |rows| ==> rows[i] != rows[j]
  }

  lemma {:induction false} RemoveAbsent(rows: seq<string>, n: string)
    requires n !in rows
    ensures RemoveName(rows, n) == rows
    decreases |rows|
  {
    if rows != [] {
      RemoveAbsent(rows[..|rows| - 1], n);
    }
  }

  /** Every Down in the registry succeeds, whatever the store. */
  ghost predicate DownsSucceed(registry: map<string, Migration>)
  {
    forall n, s :: n in registry ==> registry[n].down(s).None?
  }

  /** The `steps` newest rows all have a registered migration. */
  predicate NewestRegistered(rows: seq<string>, steps: nat, registry: map<string, Migration>)
  {
    forall i :: 0 <= i < |rows| && |rows| - steps <= i ==> rows[i] in registry
  }

  lemma DistinctInit(rows: seq<string>)
    requires Distinct(rows) && rows != []
    ensures Distinct(rows[..|rows| - 1]) && rows[|rows| - 1] !in rows[..|rows| - 1]
  {
    var init := rows[..|rows| - 1];
    forall i | 0 <= i < |init|
      ensures init[i] != rows[|rows| - 1]
    {
      assert init[i] == rows[i];
    }
  }

  /** One successful step of Rollback's loop. */
  lemma RunDownsStep(names: seq<string>, registry: map<string, Migration>, rows: seq<string>)
    requires names != [] && names[0] in registry && registry[names[0]].down(rows).None?
    ensures RunDowns(names, registry, rows) == RunDowns(names[1..], registry, RemoveName(rows, names[0]))
  {
  }

  /**
   * With distinct names, the newest ones registered and every Down
   * succeeding, Rollback(steps) removes exactly the `steps` newest rows.
   */
  lemma {:induction false} RollbackDropsNewest(rows: seq<string>, steps: nat, registry: map<string, Migration>)
    requires Distinct(rows) && NewestRegistered(rows, steps, registry) && DownsSucceed(registry)
    ensures RunDowns(Newest(rows, steps), registry, rows)
      == (rows[..|rows| - (if steps < |rows| then steps else |rows|)], None)
    decreases steps
  {
    if steps == 0 || rows == [] {
      assert rows[..|rows|] == rows;
    } else {
      var init := rows[..|rows| - 1];
      var last := rows[|rows| - 1];
      DistinctInit(rows);
      RemoveLast(rows);
      var names := Newest(rows, steps);
      assert names[0] == last && names[1..] == Newest(init, steps - 1);
      assert last in registry;
      RunDownsStep(names, registry, rows);
      assert RunDowns(names, registry, rows) == RunDowns(Newest(init, steps - 1), registry, init);
      NewestRegisteredInit(rows, steps, registry);
      RollbackDropsNewest(init, steps - 1, registry);
      KeptInit(rows, steps);
    }
  }

  /** The rows left after dropping `steps` newest ones, counted from the older rows. */
  lemma KeptInit(rows: seq<string>, steps: nat)
    requires rows != [] && steps > 0
    ensures var init := rows[..|rows| - 1];
      init[..|init| - (if steps - 1 < |init| then steps - 1 else |init|)]
        == rows[..|rows| - (if steps < |rows| then steps else |rows|)]
  {
  }

  /** Deleting the newest name, found nowhere else, leaves the older rows. */
  lemma RemoveLast(rows: seq<string>)
    requires rows != [] && rows[|rows| - 1] !in rows[..|rows| - 1]
    ensures RemoveName(rows, rows[|rows| - 1]) == rows[..|rows| - 1]
  {
    RemoveAbsent(rows[..|rows| - 1], rows[|rows| - 1]);
  }

  lemma NewestRegisteredInit(rows: seq<string>, steps: nat, registry: map<string, Migration>)
    requires rows != [] && steps > 0 && NewestRegistered(rows, steps, registry)
    ensures NewestRegistered(rows[..|rows| - 1], steps - 1, registry)
  {
    var init := rows[..|rows| - 1];
    forall i | 0 <= i < |init| && |init| - (steps - 1) <= i
      ensures init[i] in registry
    {
      assert init[i] == rows[i];
    }
  }

  /** The newest applied name being unregistered aborts Rollback before any Down, leaving the store as it was. */
  lemma RollbackUnknownNewest(rows: seq<string>, steps: nat, registry: map<string, Migration>)
    requires steps > 0 && rows != [] && rows[|rows| - 1] !in registry
    ensures RunDowns(Newest(rows, steps), registry, rows) == (rows, Some(NotFound(rows[|rows| - 1])))
  {
  }

  /** The rows Rollback leaves are always some of the rows it started with. */
  lemma {:induction false} RunDownsShrinks(names: seq<string>, registry: map<string, Migration>, rows: seq<string>)
    ensures forall n :: n in RunDowns(names, registry, rows).0 ==> n in rows
    decreases |names|
  {
    if names != [] && names[0] in registry && registry[names[0]].down(rows).None? {
      RunDownsShrinks(names[1..], registry, RemoveName(rows, names[0]));
    }
  }

  function NamesOf(ms: seq<Migration>): (r: seq<string>)
    ensures |r| == |ms|
    ensures forall i :: 0 <= i < |ms| ==> r[i] == ms[i].name
  {
    if ms == [] then [] else [ms[0].name] + NamesOf(ms[1..])
  }

  lemma {:induction false} PendingAll(ms: seq<Migration>, done: set<string>)
    requires forall i :: 0 <= i < |ms| ==> ms[i].name !in done
    ensures Pending(ms, done) == NamesOf(ms)
    decreases |ms|
  {
    if ms != [] {
      PendingAll(ms[1..], done);
    }
  }

  /** With new, distinct names and every Up succeeding, Migrate appends all the names in declaration order. */
  lemma MigrateAppendsAll(ms: seq<Migration>, rows: seq<string>)
    requires forall i :: 0 <= i < |ms| ==> ms[i].name !in rows
    requires forall i, s :: 0 <= i < |ms| ==> ms[i].up(s).None?
    ensures RunUps(ms, Names(rows), rows) == (rows + NamesOf(ms), None)
  {
    UpsSucceed(ms, Names(rows), rows);
    PendingAll(ms, Names(rows));
  }

  /**
   * Rollback(len(migrations)) after such a Migrate restores the store,
   * when the existing rows are distinct and every Down succeeds.
   */
  lemma MigrateThenRollback(ms: seq<Migration>, rows: seq<string>)
    requires Distinct(rows) && Distinct(NamesOf(ms))
    requires forall i :: 0 <= i < |ms| ==> ms[i].name !in rows
    requires forall i, s :: 0 <= i < |ms| ==> ms[i].down(s).None?
    ensures RunDowns(Newest(rows + NamesOf(ms), |ms|), RegistryUpTo(ms, |ms|), rows + NamesOf(ms)) == (rows, None)
  {
    assert Distinct(rows + NamesOf(ms)) by {
      DistinctAppend(rows, NamesOf(ms));
    }
    assert NewestRegistered(rows + NamesOf(ms), |ms|, RegistryUpTo(ms, |ms|)) by {
      AppendedRegistered(rows, ms);
    }
    assert DownsSucceed(RegistryUpTo(ms, |ms|)) by {
      RegistryDownsSucceed(ms);
    }
    RollbackAppended(rows, NamesOf(ms), RegistryUpTo(ms, |ms|));
  }

  /** Rolling back as many steps as names were appended leaves the rows from before. */
  lemma RollbackAppended(rows: seq<string>, names: seq<string>, registry: map<string, Migration>)
    requires Distinct(rows + names) && NewestRegistered(rows + names, |names|, registry) && DownsSucceed(registry)
    ensures RunDowns(Newest(rows + names, |names|), registry, rows + names) == (rows, None)
  {
    var after := rows + names;
    RollbackDropsNewest(after, |names|, registry);
    var k := if |names| < |after| then |names| else |after|;
    assert k == |names|;
    assert after[..|after| - k] == rows;
  }

  /** The names Migrate appended all have a registered migration. */
  lemma AppendedRegistered(rows: seq<string>, ms: seq<Migration>)
    ensures NewestRegistered(rows + NamesOf(ms), |ms|, RegistryUpTo(ms, |ms|))
  {
    var after := rows + NamesOf(ms);
    forall i | 0 <= i < |after| && |after| - |ms| <= i
      ensures after[i] in RegistryUpTo(ms, |ms|)
    {
      assert after[i] == NamesOf(ms)[i - |rows|];
    }
  }

  /** Every migration in the registry is one of the declared ones. */
  lemma RegistryDownsSucceed(ms: seq<Migration>)
    requires forall i, s :: 0 <= i < |ms| ==> ms[i].down(s).None?
    ensures DownsSucceed(RegistryUpTo(ms, |ms|))
  {
    forall n, s | n in RegistryUpTo(ms, |ms|)
      ensures RegistryUpTo(ms, |ms|)[n].down(s).None?
    {
      RegistryDown(ms, |ms|, n);
    }
  }

  /** When every Up succeeds, Migrate succeeds having appended every pending name. */
  lemma {:induction false} UpsSucceed(ms: seq<Migration>, done: set<string>, rows: seq<string>)
    requires forall i, s :: 0 <= i < |ms| ==> ms[i].up(s).None?
    ensures RunUps(ms, done, rows) == (rows + Pending(ms, done), None)
    decreases |ms|
  {
    if ms != [] {
      UpsSucceedTail(ms);
      var rows' := if ms[0].name in done then rows else rows + [ms[0].name];
      assert ms[0].up(rows).None?;
      assert RunUps(ms, done, rows) == RunUps(ms[1..], done, rows');
      UpsSucceed(ms[1..], done, rows');
      PendingStep(ms, done, rows, rows');
    } else {
      assert rows + Pending(ms, done) == rows;
    }
  }

  lemma UpsSucceedTail(ms: seq<Migration>)
    requires ms != [] && forall i, s :: 0 <= i < |ms| ==> ms[i].up(s).None?
    ensures forall i, s :: 0 <= i < |ms[1..]| ==> ms[1..][i].up(s).None?
  {
    forall i, s | 0 <= i < |ms[1..]|
      ensures ms[1..][i].up(s).None?
    {
      assert ms[1..][i] == ms[i + 1];
    }
  }

  lemma PendingStep(ms: seq<Migration>, done: set<string>, rows: seq<string>, rows': seq<string>)
    requires ms != [] && rows' == if ms[0].name in done then rows else rows + [ms[0].name]
    ensures rows' + Pending(ms[1..], done) == rows + Pending(ms, done)
  {
    var rest := Pending(ms[1..], done);
    if ms[0].name !in done {
      assert Pending(ms, done) == [ms[0].name] + rest;
      AppendAssoc(rows, [ms[0].name], rest);
    } else {
      assert Pending(ms, done) == rest;
    }
  }

  lemma DistinctAppend(a: seq<string>, b: seq<string>)
    requires Distinct(a) && Distinct(b)
    requires forall i :: 0 <= i < |b| ==> b[i] !in a
    ensures Distinct(a + b)
  {
    forall i, j | 0 <= i < j < |a + b|
      ensures (a + b)[i] != (a + b)[j]
    {
      if i < |a| && j >= |a| {
        assert (a + b)[j] == b[j - |a|];
        assert (a + b)[i] in a;
      }
    }
  }

  lemma {:induction false} RegistryDown(ms: seq<Migration>, n: nat, k: string)
    requires n <= |ms| && k in RegistryUpTo(ms, n)
    ensures exists i :: 0 <= i < n && RegistryUpTo(ms, n)[k] == ms[i]
    decreases n
  {
    if n > 0 && k != ms[n - 1].name {
      RegistryDown(ms, n - 1, k);
    }
  }

  /** The name-to-migration map Rollback builds, later declarations winning. */
  method BuildRegistry(ms: seq<Migration>) returns (registry: map<string, Migration>)
    ensures registry == RegistryUpTo(ms, |ms|)
  {
    registry := map[];
    var j := 0;
    while j < |ms|
      invariant 0 <= j <= |ms|
      invariant registry == RegistryUpTo(ms, j)
    {
      registry := registry[ms[j].name := ms[j]];
      j := j + 1;
    }
  }

  class MigrationManager {
    const db: Database
    var migrations: seq<Migration>

    /** NewMigrationManager: no migrations yet. */
    constructor (db: Database)
      ensures this.db == db && migrations == []
    {
      this.db := db;
      migrations := [];
    }

    /** AddMigration: one more migration at the end; earlier ones stay as they were. */
    method AddMigration(name: string, up: seq<string> -> Option<string>, down: seq<string> -> Option<string>)
      modifies this
      ensures migrations == old(migrations) + [Migration(name, up, down)]
      ensures |migrations| == |old(migrations)| + 1 && migrations[..|old(migrations)|] == old(migrations)
    {
      migrations := migrations + [Migration(name, up, down)];
    }

    /**
     * Migrate: `createErr` and `queryErr` are what creating the table and
     * reading the applied names report.  The applied names are read once,
     * before any migration runs.
     */
    method Migrate(createErr: Option<string>, queryErr: Option<string>) returns (err: Option<string>)
      modifies db
      ensures createErr.Some? ==>
        err == Some("failed to create migrations table: " + createErr.value) && db.rows == old(db.rows)
      ensures createErr.None? && queryErr.Some? ==>
        err == Some("failed to get applied migrations: " + queryErr.value) && db.rows == old(db.rows)
      ensures createErr.None? && queryErr.None? ==>
        (db.rows, err) == RunUps(migrations, Names(old(db.rows)), old(db.rows))
    {
      if createErr.Some? {
        return Some("failed to create migrations table: " + createErr.value);
      }
      if queryErr.Some? {
        return Some("failed to get applied migrations: " + queryErr.value);
      }
      var appliedMigrations := db.rows;
      var applied: set<string> := {};
      var j := 0;
      while j < |appliedMigrations|
        invariant 0 <= j <= |appliedMigrations|
        invariant applied == Names(appliedMigrations[..j])
      {
        assert appliedMigrations[..j + 1] == appliedMigrations[..j] + [appliedMigrations[j]];
        applied := applied + {appliedMigrations[j]};
        j := j + 1;
      }
      assert appliedMigrations[..j] == appliedMigrations;
      var i := 0;
      while i < |migrations|
        invariant 0 <= i <= |migrations|
        invariant RunUps(migrations, applied, appliedMigrations) == RunUps(migrations[i..], applied, db.rows)
      {
        var migration := migrations[i];
        assert migrations[i..][1..] == migrations[i + 1..];
        if migration.name !in applied {
          var upErr := migration.up(db.rows);
          if upErr.Some? {
            return Some(ApplyFailure(migration.name, upErr.value));
          }
          db.rows := db.rows + [migration.name];
        }
        i := i + 1;
      }
      err := None;
    }

    /**
     * Rollback(steps): `queryErr` is what reading the applied names
     * reports.  A negative `steps` is SQLite's unlimited LIMIT.
     */
    method Rollback(steps: int, queryErr: Option<string>) returns (err: Option<string>)
      modifies db
      ensures queryErr.Some? ==>
        err == Some("failed to get applied migrations: " + queryErr.value) && db.rows == old(db.rows)
      ensures queryErr.None? ==>
        (db.rows, err) == RunDowns(Newest(old(db.rows), if steps < 0 then |old(db.rows)| else steps),
                                   RegistryUpTo(migrations, |migrations|), old(db.rows))
    {
      if queryErr.Some? {
        return Some("failed to get applied migrations: " + queryErr.value);
      }
      var appliedMigrations := Newest(db.rows, if steps < 0 then |db.rows| else steps);
      var registry := BuildRegistry(migrations);
      err := RevertAll(appliedMigrations, registry);
    }

    /** Rollback's loop: revert the names in order, stopping at the first that is unknown or fails. */
    method RevertAll(names: seq<string>, registry: map<string, Migration>) returns (err: Option<string>)
      modifies db
      ensures (db.rows, err) == RunDowns(names, registry, old(db.rows))
    {
      var i := 0;
      while i < |names|
        invariant 0 <= i <= |names|
        invariant RunDowns(names, registry, old(db.rows)) == RunDowns(names[i..], registry, db.rows)
      {
        var name := names[i];
        ghost var rest := names[i..];
        assert rest[0] == name && rest[1..] == names[i + 1..];
        if name !in registry {
          return Some(NotFound(name));
        }
        var downErr := registry[name].down(db.rows);
        if downErr.Some? {
          return Some(RollbackFailure(name, downErr.value));
        }
        RunDownsStep(rest, registry, db.rows);
        db.rows := RemoveName(db.rows, name);
        i := i + 1;
      }
      assert names[i..] == [];
      err := None;
    }
  }
}
