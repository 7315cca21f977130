/**
 * The leveled logger of pkg/flux/logger/logger.go: level names and
 * parsing, the level filter, colouring, construction defaults and the
 * field-scoped copies.  Writing a line to the writer is left out.
 */
module Logging {
  import opened Wrappers
  import opened Str
  import opened AppErrors

  /** type Level int, with the five named levels 0..4. */
  const LevelDebug: int := 0
  const LevelInfo: int := 1
  const LevelWarn: int := 2
  const LevelError: int := 3
  const LevelFatal: int := 4

  predicate IsNamedLevel(l: int) { LevelDebug <= l <= LevelFatal }

  /** Level.String. */
  function LevelString(l: int): (r: string)
    ensures !IsNamedLevel(l) ==> r == "UNKNOWN"
  {
    if l == LevelDebug then "DEBUG"
    else if l == LevelInfo then "INFO"
    else if l == LevelWarn then "WARN"
    else if l == LevelError then "ERROR"
    else if l == LevelFatal then "FATAL"
    else "UNKNOWN"
  }

  /** ParseLevel: the level named by the text in any letter case; Info for anything else. */
  function ParseLevel(level: string): (r: int)
    ensures IsNamedLevel(r)
  {
    var u := ToUpper(level);
    if u == "DEBUG" then LevelDebug
    else if u == "INFO" then LevelInfo
    else if u == "WARN" then LevelWarn
    else if u == "ERROR" then LevelError
    else if u == "FATAL" then LevelFatal
    else LevelInfo
  }

  lemma ToUpperIdempotent(s: string)
    ensures ToUpper(ToUpper(s)) == ToUpper(s)
  {
  }

  /** Parsing the name of a named level gives the level back. */
  lemma ParseLevelString(l: int)
    requires IsNamedLevel(l)
    ensures ParseLevel(LevelString(l)) == l
  {
    assert ToUpper("DEBUG") == "DEBUG";
    assert ToUpper("INFO") == "INFO";
    assert ToUpper("WARN") == "WARN";
    assert ToUpper("ERROR") == "ERROR";
    assert ToUpper("FATAL") == "FATAL";
  }

  /** Parsing ignores letter case. */
  lemma ParseLevelCaseInsensitive(level: string)
    ensures ParseLevel(ToUpper(level)) == ParseLevel(level)
    ensures ParseLevel(ToLower(level)) == ParseLevel(level)
  {
    ToUpperIdempotent(level);
    assert ToUpper(ToLower(level)) == ToUpper(level);
  }

  /** Text naming no level parses as Info. */
  lemma ParseLevelUnknown(level: string)
    requires forall l :: IsNamedLevel(l) ==> ToUpper(level) != LevelString(l)
    ensures ParseLevel(level) == LevelInfo
  {
    assert ToUpper(level) != LevelString(0) && ToUpper(level) != LevelString(1) && ToUpper(level) != LevelString(2);
    assert ToUpper(level) != LevelString(3) && ToUpper(level) != LevelString(4);
  }

  /** The filter in log: a message is written iff its level is not below the logger's. */
  predicate Emits(loggerLevel: int, messageLevel: int)
  {
    !(messageLevel < loggerLevel)
  }

  /** A logger that writes a level also writes every higher level, and every logger writes Fatal when its level is named. */
  lemma EmitsMonotone(loggerLevel: int, m1: int, m2: int)
    requires Emits(loggerLevel, m1) && m1 <= m2
    ensures Emits(loggerLevel, m2)
  {
  }

  lemma EmitsOrder(loggerLevel: int)
    requires IsNamedLevel(loggerLevel)
    ensures Emits(loggerLevel, LevelFatal)
    ensures Emits(loggerLevel, LevelDebug) <==> loggerLevel == LevelDebug
    ensures Emits(loggerLevel, LevelInfo) <==> loggerLevel <= LevelInfo
  {
  }

  const Reset: string := "\U{1b}[0m"

  /** The colour of each named level; every other level gets the reset code. */
  function ColorCode(l: int): (r: string)
    ensures HasPrefix(r, "\U{1b}[") && HasSuffix(r, "m")
    ensures IsNamedLevel(l) <==> r != Reset
  {
    if l == LevelDebug then "\U{1b}[37m"
    else if l == LevelInfo then "\U{1b}[32m"
    else if l == LevelWarn then "\U{1b}[33m"
    else if l == LevelError then "\U{1b}[31m"
    else if l == LevelFatal then "\U{1b}[35m"
    else Reset
  }

  /** colorize: the level's colour, the text and the reset code. */
  function Colorize(text: string, l: int): (r: string)
    ensures HasPrefix(r, ColorCode(l)) && HasSuffix(r, Reset)
    ensures |r| == |ColorCode(l)| + |text| + |Reset| && r[|ColorCode(l)|..|r| - |Reset|] == text
  {
    ColorCode(l) + text + Reset
  }

  /** The five named levels have five different colours, none of them the reset code. */
  lemma ColorCodesDistinct(a: int, b: int)
    requires IsNamedLevel(a) && IsNamedLevel(b) && a != b
    ensures ColorCode(a) != ColorCode(b)
    ensures ColorCode(a) != Reset
  {
    assert ColorCode(a)[3] != ColorCode(b)[3];
  }

  /** An io.Writer: the standard output or some other writer. */
  datatype Writer = Stdout | Custom(name: string)

  datatype Config = Config(level: int, writer: Option<Writer>, timeFormat: string, colorized: bool)

  const DefaultTimeFormat: string := "2006-01-02 15:04:05"

  /** DefaultConfig: Info, standard output, the default time format, colours on. */
  function DefaultConfig(): (c: Config)
    ensures c.level == LevelInfo && c.writer == Some(Stdout) && c.timeFormat == DefaultTimeFormat && c.colorized
  {
    Config(LevelInfo, Some(Stdout), DefaultTimeFormat, true)
  }

  /** A Go map copy, entry by entry, in an unspecified order. */
  method CopyFields(m: map<string, Value>) returns (r: map<string, Value>)
    ensures r == m
  {
    r := map[];
    var todo := m.Keys;
    while todo != {}
      invariant todo <= m.Keys
      invariant r.Keys == m.Keys - todo
      invariant forall k :: k in r ==> r[k] == m[k]
      decreases todo
    {
      var k :| k in todo;
      r := r[k := m[k]];
      todo := todo - {k};
    }
  }

  /** Merges `extra` into `m` entry by entry; `extra` wins on shared keys. */
  method MergeFields(m: map<string, Value>, extra: map<string, Value>) returns (r: map<string, Value>)
    ensures r == m + extra
  {
    r := m;
    var todo := extra.Keys;
    while todo != {}
      invariant todo <= extra.Keys
      invariant r.Keys == m.Keys + (extra.Keys - todo)
      invariant forall k :: k in r ==> r[k] == if k in extra.Keys - todo then extra[k] else m[k]
      decreases todo
    {
      var k :| k in todo;
      r := r[k := extra[k]];
      todo := todo - {k};
    }
  }

  class Logger {
    var level: int
    var writer: Writer
    var fields: map<string, Value>
    var timeFormat: string
    var colorized: bool

    /** New: a nil writer becomes standard output and an empty time format the default one; no fields. */
    constructor (config: Config)
      ensures Valid()
      ensures level == config.level && colorized == config.colorized && fields == map[]
      ensures writer == (if config.writer.None? then Stdout else config.writer.value)
      ensures timeFormat == (if config.timeFormat == "" then DefaultTimeFormat else config.timeFormat)
    {
      level := config.level;
      writer := if config.writer.None? then Stdout else config.writer.value;
      fields := map[];
      timeFormat := if config.timeFormat == "" then DefaultTimeFormat else config.timeFormat;
      colorized := config.colorized;
    }

    /** The Logger struct literal: every field as given. */
    constructor Make(level: int, writer: Writer, fields: map<string, Value>, timeFormat: string, colorized: bool)
      ensures this.level == level && this.writer == writer && this.fields == fields
      ensures this.timeFormat == timeFormat && this.colorized == colorized
    {
      this.level := level;
      this.writer := writer;
      this.fields := fields;
      this.timeFormat := timeFormat;
      this.colorized := colorized;
    }

    /** Every logger built by New, and every copy of one, has a time format. */
    predicate Valid()
      reads this
    {
      timeFormat != ""
    }

    /** WithLevel: a new logger with the same fields, writer, format and colouring and the given level. */
    method WithLevel(l: int) returns (r: Logger)
      ensures fresh(r)
      ensures Valid() ==> r.Valid()
      ensures r.level == l && r.fields == fields
      ensures r.writer == writer && r.timeFormat == timeFormat && r.colorized == colorized
    {
      var newFields := CopyFields(fields);
      r := new Logger.Make(l, writer, newFields, timeFormat, colorized);
    }

    /** WithField: a new logger with one more field (replacing a field of the same key); the receiver keeps its own fields. */
    method WithField(key: string, value: Value) returns (r: Logger)
      ensures fresh(r)
      ensures Valid() ==> r.Valid()
      ensures r.fields == fields[key := value]
      ensures r.level == level && r.writer == writer && r.timeFormat == timeFormat && r.colorized == colorized
    {
      var newFields := CopyFields(fields);
      newFields := newFields[key := value];
      r := new Logger.Make(level, writer, newFields, timeFormat, colorized);
    }

    /** WithFields: a new logger whose fields are the receiver's merged with the argument, the argument winning. */
    method WithFields(extra: map<string, Value>) returns (r: Logger)
      ensures fresh(r)
      ensures Valid() ==> r.Valid()
      ensures r.fields == fields + extra
      ensures r.level == level && r.writer == writer && r.timeFormat == timeFormat && r.colorized == colorized
    {
      var newFields := CopyFields(fields);
      newFields := MergeFields(newFields, extra);
      r := new Logger.Make(level, writer, newFields, timeFormat, colorized);
    }

    /** Whether log writes a message of the given level. */
    predicate Writes(messageLevel: int)
      reads this
    {
      Emits(level, messageLevel)
    }
  }

  /** DefaultLogger: New on DefaultConfig. */
  method DefaultLogger() returns (r: Logger)
    ensures fresh(r) && r.Valid()
    ensures r.level == LevelInfo && r.writer == Stdout && r.timeFormat == DefaultTimeFormat && r.colorized
    ensures r.fields == map[]
  {
    r := new Logger(DefaultConfig());
  }

  /** Adding fields one at a time or all at once gives the same fields. */
  lemma WithFieldsOfOne(fields: map<string, Value>, key: string, value: Value)
    ensures fields + map[key := value] == fields[key := value]
  {
  }
}
