/**
 A leveled logger. A threshold is resolved once, from the raw value of the
 `verbose` option, and every message whose level ranks at or below the
 threshold is forwarded, as one string, to the host's log sink.
 */
module Logging {

  /** The four levels, from least verbose to most. */
  datatype LogLevel = ERROR | WARN | INFO | DEBUG

  /** The numeric value each level carries in the enum. */
  function Rank(l: LogLevel): (r: int)
    ensures 1 <= r <= 4
  {
    match l
    case ERROR => 1
    case WARN => 2
    case INFO => 3
    case DEBUG => 4
  }

  /** A message at `level` is forwarded under `threshold` iff its rank is not greater. */
  predicate Enabled(level: LogLevel, threshold: LogLevel) {
    Rank(level) <= Rank(threshold)
  }

  /** Raising the threshold never hides a message that was shown before,
      and the ranks order the levels strictly. */
  lemma EnabledOrder(level: LogLevel, t: LogLevel, t': LogLevel)
    ensures Enabled(ERROR, t) && Enabled(level, DEBUG)
    ensures Enabled(level, t) && Rank(t) <= Rank(t') ==> Enabled(level, t')
    ensures Enabled(DEBUG, t) <==> t == DEBUG
    ensures Rank(level) == Rank(t) <==> level == t
  {
  }

  /** The level used when the option does not pick one. */
  const DefaultLevel: LogLevel := INFO

  /** The raw value of the `verbose` option as the host hands it over. */
  datatype Verbosity =
    | Absent              // the option was not given
    | Flag(b: bool)       // given as a boolean, `--verbose` with no value is `Flag(true)`
    | Named(name: string) // given with a string value
    | Other               // any other kind of value

  /** The lower-case name of each level, the keys of the lookup table. */
  function Name(l: LogLevel): string {
    match l
    case ERROR => "error"
    case WARN => "warn"
    case INFO => "info"
    case DEBUG => "debug"
  }

  /** The table a lower-cased level name is looked up in. */
  const LevelTable: map<string, LogLevel> :=
    map["error" := ERROR, "warn" := WARN, "info" := INFO, "debug" := DEBUG, "" := DEBUG]

  predicate IsAsciiUpper(c: char) {
    'A' <= c <= 'Z'
  }

  /** ASCII lower-casing of one character; every other character is kept. */
  function LowerChar(c: char): (d: char)
    ensures !IsAsciiUpper(d)
    ensures IsAsciiUpper(c) || d == c
    ensures IsAsciiUpper(c) ==> d as int - c as int == 'a' as int - 'A' as int
  {
    if IsAsciiUpper(c) then (c as int + ('a' as int - 'A' as int)) as char else c
  }

  /** Lower-casing of a string, character by character. */
  function ToLower(s: string): (r: string)
    ensures |r| == |s|
    ensures forall i :: 0 <= i < |s| ==> r[i] == LowerChar(s[i])
  {
    if s == [] then [] else [LowerChar(s[0])] + ToLower(s[1..])
  }

  /** Lower-casing twice is lower-casing once. */
  lemma ToLowerIdempotent(s: string)
    ensures ToLower(ToLower(s)) == ToLower(s)
  {
  }

  /** `s` and `t` spell the same word when case is ignored. */
  predicate EqualsIgnoringCase(s: string, t: string) {
    |s| == |t| && forall i :: 0 <= i < |s| ==> LowerChar(s[i]) == LowerChar(t[i])
  }

  /** The threshold the constructor computes from the option. */
  function ResolveLevel(v: Verbosity): (l: LogLevel)
    ensures v == Flag(true) ==> l == DEBUG
    ensures v == Named("") ==> l == DEBUG
    ensures !v.Named? && v != Flag(true) ==> l == DefaultLevel
  {
    if v == Flag(true) then DEBUG
    else if v.Named? then
      var key := ToLower(v.name);
      if key in LevelTable then LevelTable[key] else DefaultLevel
    else DefaultLevel
  }

  /** The names in the table are already lower case. */
  lemma NameIsLower(l: LogLevel)
    ensures ToLower(Name(l)) == Name(l)
    ensures forall i :: 0 <= i < |Name(l)| ==> LowerChar(Name(l)[i]) == Name(l)[i]
  {
  }

  /** A string lower-cases to a level's name exactly when it spells that name in any case. */
  lemma LowersToName(s: string, l: LogLevel)
    ensures ToLower(s) == Name(l) <==> EqualsIgnoringCase(s, Name(l))
  {
  }

  /** Every key of the table is the empty string or a level's name. */
  lemma TableKeys(key: string)
    ensures key in LevelTable <==> key == "" || exists l :: key == Name(l)
    ensures forall l :: Name(l) in LevelTable && LevelTable[Name(l)] == l
  {
    if key in LevelTable && key != "" {
      assert key == Name(LevelTable[key]);
    }
  }

  /**
   The complete answer for a string option: a level is chosen by spelling its
   name in any case; the empty string gives DEBUG; every other string gives
   the default INFO.
   */
  lemma ResolvedFromName(s: string, l: LogLevel)
    ensures ResolveLevel(Named(s)) == l <==>
      || EqualsIgnoringCase(s, Name(l))
      || (s == "" && l == DEBUG)
      || (s != "" && l == DefaultLevel && forall k :: !EqualsIgnoringCase(s, Name(k)))
  {
    var key := ToLower(s);
    TableKeys(key);
    LowersToName(s, l);
    forall k ensures ToLower(s) == Name(k) <==> EqualsIgnoringCase(s, Name(k)) {
      LowersToName(s, k);
    }
    if s != "" && forall k :: !EqualsIgnoringCase(s, Name(k)) {
      assert key !in LevelTable;
    }
    if EqualsIgnoringCase(s, Name(l)) {
      assert s != "";
    }
  }

  /** A level's own name, in any case, resolves back to that level. */
  lemma NameRoundTrip(s: string, l: LogLevel)
    requires EqualsIgnoringCase(s, Name(l))
    ensures ResolveLevel(Named(s)) == l
  {
    ResolvedFromName(s, l);
  }

  /** An unrecognised non-empty string falls back to INFO, not to DEBUG. */
  lemma UnknownNameIsDefault(s: string)
    requires s != ""
    requires forall k :: !EqualsIgnoringCase(s, Name(k))
    ensures ResolveLevel(Named(s)) == INFO
  {
    ResolvedFromName(s, INFO);
  }

  /** "DEBUG", "Debug" and "debug" all select DEBUG. */
  lemma DebugCaseVariants()
    ensures ResolveLevel(Named("DEBUG")) == DEBUG
    ensures ResolveLevel(Named("Debug")) == DEBUG
    ensures ResolveLevel(Named("debug")) == DEBUG
  {
    NameRoundTrip("DEBUG", DEBUG);
    NameRoundTrip("Debug", DEBUG);
    NameRoundTrip("debug", DEBUG);
  }

  /** "verbose" names no level, so it selects INFO and not DEBUG. */
  lemma VerboseWordIsDefault()
    ensures ResolveLevel(Named("verbose")) == INFO
  {
  }

  /** The logger: a threshold fixed by the constructor and the lines it has forwarded. */
  class LoggingService {
    /** The threshold; only the constructor assigns it. */
    var logLevel: LogLevel
    /** Everything forwarded to the host's log sink, in order. */
    var sink: seq<string>

    constructor (verbosity: Verbosity)
      ensures logLevel == ResolveLevel(verbosity)
      ensures sink == []
    {
      logLevel := ResolveLevel(verbosity);
      sink := [];
    }

    /** Forwards `message` unchanged iff `level` is enabled under the threshold. */
    method Log(message: string, level: LogLevel := INFO)
      modifies this`sink
      ensures logLevel == old(logLevel)
      ensures Enabled(level, logLevel) ==> sink == old(sink) + [message]
      ensures !Enabled(level, logLevel) ==> sink == old(sink)
    {
      if Rank(level) <= Rank(logLevel) {
        sink := sink + [message];
      }
    }

    /** Errors are forwarded under every threshold, prefixed with "[ERROR] ". */
    method Error(message: string)
      modifies this`sink
      ensures logLevel == old(logLevel)
      ensures sink == old(sink) + ["[ERROR] " + message]
    {
      Log("[ERROR] " + message, ERROR);
    }

    /** Warnings are forwarded, prefixed with "[WARN] ", iff the threshold is WARN or above. */
    method Warn(message: string)
      modifies this`sink
      ensures logLevel == old(logLevel)
      ensures logLevel in {WARN, INFO, DEBUG} ==> sink == old(sink) + ["[WARN] " + message]
      ensures logLevel == ERROR ==> sink == old(sink)
    {
      Log("[WARN] " + message, WARN);
    }

    /** Info messages are forwarded without a prefix iff the threshold is INFO or above. */
    method Info(message: string)
      modifies this`sink
      ensures logLevel == old(logLevel)
      ensures logLevel in {INFO, DEBUG} ==> sink == old(sink) + [message]
      ensures logLevel in {ERROR, WARN} ==> sink == old(sink)
    {
      Log(message, INFO);
    }

    /** Debug messages are forwarded, prefixed with "[DEBUG] ", only under DEBUG. */
    method Debug(message: string)
      modifies this`sink
      ensures logLevel == old(logLevel)
      ensures logLevel == DEBUG ==> sink == old(sink) + ["[DEBUG] " + message]
      ensures logLevel != DEBUG ==> sink == old(sink)
    {
      Log("[DEBUG] " + message, DEBUG);
    }
  }

  /** `log` without a level behaves as `log` at INFO. */
  method LogDefaultIsInfo(verbosity: Verbosity, message: string) returns (plain: seq<string>, atInfo: seq<string>)
    ensures plain == atInfo
    ensures plain == if ResolveLevel(verbosity) in {INFO, DEBUG} then [message] else []
  {
    var a := new LoggingService(verbosity);
    a.Log(message);
    var b := new LoggingService(verbosity);
    b.Log(message, INFO);
    plain, atInfo := a.sink, b.sink;
  }

  /** A logger configured with "warn": errors and warnings pass, the rest is dropped. */
  method WarnScenario() returns (out: seq<string>)
    ensures out == ["a", "b"]
  {
    NameRoundTrip("warn", WARN);
    var logger := new LoggingService(Named("warn"));
    logger.Log("a", ERROR);
    logger.Log("b", WARN);
    logger.Log("c", INFO);
    logger.Debug("d");
    out := logger.sink;
  }
}
