/**
 * The logger of the Python 3 library (slib3/log.py): its level numbers,
 * the two environment lookups and the settings a logger object carries.
 * Colour and message formatting are presentation and are not modelled.
 */
module Slib3Log {
  import opened Text

  // The numbers of Python's `logging` levels DEBUG, INFO, WARNING, ERROR
  // and CRITICAL, and the library's own levels around them.
  const DEBUG2: int := 9
  const DEBUG1: int := 10
  const INFO: int := 20
  const OK: int := 21
  const SEPARATOR: int := 22
  const WARNING: int := 30
  const ERROR: int := 40
  const CRITICAL: int := 50
  const REQUEST: int := 51

  /** All levels, from the most to the least verbose. */
  const Levels: seq<int> := [DEBUG2, DEBUG1, INFO, OK, SEPARATOR, WARNING, ERROR, CRITICAL, REQUEST]

  lemma LevelsStrictlyIncrease()
    ensures forall i, j :: 0 <= i < j < |Levels| ==> Levels[i] < Levels[j]
  {
  }

  /** The names `LOG_LEVEL` may hold (after lowercasing). */
  const LevelNames: map<string, int> := map[
    "debug2" := DEBUG2,
    "debug1" := DEBUG1, "debug" := DEBUG1,
    "information" := INFO, "info" := INFO,
    "warning" := WARNING, "warn" := WARNING,
    "error" := ERROR,
    "critical" := CRITICAL, "crit" := CRITICAL]

  /** `os.environ.get(name, "").lower()`. */
  function EnvValue(env: map<string, string>, name: string): string {
    Lower(if name in env then env[name] else "")
  }

  /**
   * `get_env_level`: the level named by `LOG_LEVEL`, whatever its case;
   * INFO when it is unset or names no level.
   */
  function GetEnvLevel(env: map<string, string>): (r: int)
    ensures r in {DEBUG2, DEBUG1, INFO, WARNING, ERROR, CRITICAL}
    ensures r == DEBUG2 <==> EnvValue(env, "LOG_LEVEL") == "debug2"
    ensures r == DEBUG1 <==> EnvValue(env, "LOG_LEVEL") in {"debug1", "debug"}
    ensures r == WARNING <==> EnvValue(env, "LOG_LEVEL") in {"warning", "warn"}
    ensures r == ERROR <==> EnvValue(env, "LOG_LEVEL") == "error"
    ensures r == CRITICAL <==> EnvValue(env, "LOG_LEVEL") in {"critical", "crit"}
    ensures "LOG_LEVEL" !in env ==> r == INFO
  {
    LevelOf(EnvValue(env, "LOG_LEVEL"))
  }

  /** The table lookup of `get_env_level`, with INFO for names it does not hold. */
  function LevelOf(name: string): int {
    if name in LevelNames then LevelNames[name] else INFO
  }

  /** The values `LOG_DATETIME` may hold (after lowercasing). */
  const DatetimeNames: map<string, bool> := map["true" := true, "1" := true, "false" := false, "0" := false]

  /** `get_env_datetime`: true exactly for `true` (any case) or `1`. */
  function GetEnvDatetime(env: map<string, string>): (r: bool)
    ensures r <==> EnvValue(env, "LOG_DATETIME") in {"true", "1"}
  {
    var name := EnvValue(env, "LOG_DATETIME");
    if name in DatetimeNames then DatetimeNames[name] else false
  }

  /** The formatter on the logger's handler. */
  datatype Formatter =
    | Bare           // `CustomFormatter()`, before the first setup
    | Plain          // "[%(levelname)s] %(message)s"
    | WithDatetime   // "%(asctime)s [%(levelname)s] %(message)s" with "%Y.%m.%d %H:%M:%S"

  /** A keyword argument of `setup`: absent, or present with a value. */
  datatype Setting<T> = Unset | Set(value: T)

  class CustomLogger {
    var coloramaEnabled: bool
    /** The level of the underlying `logging` logger. */
    var level: int
    var formatter: Formatter

    /**
     * `CustomLogger()`: colours on, and the level and the datetime prefix
     * taken from the environment.
     */
    constructor (env: map<string, string>)
      ensures coloramaEnabled
      ensures level == GetEnvLevel(env)
      ensures formatter == if GetEnvDatetime(env) then WithDatetime else Plain
    {
      coloramaEnabled := true;
      level := 0;
      formatter := Bare;
      new;
      Setup(Set(GetEnvLevel(env)), Unset, Set(GetEnvDatetime(env)));
    }

    /** `setup(**kwargs)`: each setting changes only when its keyword is given. */
    method Setup(level: Setting<int>, coloramaEnabled: Setting<bool>, datetimeEnabled: Setting<bool>)
      modifies this
      ensures this.level == if level.Set? then level.value else old(this.level)
      ensures this.coloramaEnabled == if coloramaEnabled.Set? then coloramaEnabled.value else old(this.coloramaEnabled)
      ensures this.formatter ==
        if datetimeEnabled.Unset? then old(this.formatter)
        else if datetimeEnabled.value then WithDatetime
        else Plain
    {
      if level.Set? {
        this.level := level.value;
      }
      if coloramaEnabled.Set? {
        this.coloramaEnabled := coloramaEnabled.value;
      }
      if datetimeEnabled.Set? {
        if datetimeEnabled.value {
          formatter := WithDatetime;
        } else {
          formatter := Plain;
        }
      }
    }
  }

  /** A lowercase `LOG_LEVEL` is looked up as it is. */
  lemma LevelSetTo(env: map<string, string>, v: string)
    requires forall i :: 0 <= i < |v| ==> !('A' <= v[i] <= 'Z')
    ensures GetEnvLevel(env["LOG_LEVEL" := v]) == LevelOf(v)
  {
    LowerLowercase(v);
  }

  /** The aliases name the same level. */
  lemma AliasesAgree()
    ensures LevelOf("debug") == LevelOf("debug1") == DEBUG1
    ensures LevelOf("info") == LevelOf("information") == INFO
    ensures LevelOf("warn") == LevelOf("warning") == WARNING
    ensures LevelOf("crit") == LevelOf("critical") == CRITICAL
  {
  }

  /** Lowercasing text that has no upper-case letter leaves it as it is. */
  lemma LowerLowercase(s: string)
    requires forall i :: 0 <= i < |s| ==> !('A' <= s[i] <= 'Z')
    ensures Lower(s) == s
  {
  }
}
