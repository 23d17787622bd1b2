/**
 * The log levels of the BMS Logger and the plugin's fixed table from the
 * names JavaScript uses to those levels.
 */
module LogLevels {
  import opened Wrappers

  datatype LogLevel = NoLevel | Debug | Info | Warn | ErrorLevel | Fatal | Analytics

  /** `logLevelDictionary`: seven upper-case names, one per level. */
  const LogLevelDictionary: map<string, LogLevel> := map[
    "NONE" := NoLevel,
    "DEBUG" := Debug,
    "INFO" := Info,
    "WARN" := Warn,
    "ERROR" := ErrorLevel,
    "FATAL" := Fatal,
    "ANALYTICS" := Analytics
  ]

  /** The name under which the table lists each level. */
  function LevelKey(level: LogLevel): string
  {
    match level
    case NoLevel => "NONE"
    case Debug => "DEBUG"
    case Info => "INFO"
    case Warn => "WARN"
    case ErrorLevel => "ERROR"
    case Fatal => "FATAL"
    case Analytics => "ANALYTICS"
  }

  /**
   * Looking a name up in the table: it finds a level exactly when the name
   * is some level's key, and then the level whose key it is.
   */
  function LevelOf(key: string): (r: Option<LogLevel>)
    ensures r.Some? <==> exists level :: LevelKey(level) == key
    ensures r.Some? ==> LevelKey(r.value) == key
  {
    if key in LogLevelDictionary then
      KeyOfListedLevel(key);
      Some(LogLevelDictionary[key])
    else
      None
  }

  /** Each name in the table is the key of the level it lists. */
  lemma KeyOfListedLevel(key: string)
    requires key in LogLevelDictionary
    ensures LevelKey(LogLevelDictionary[key]) == key
  {
  }

  /** The table is one-to-one: every level is listed once, under its own key, and no two names share a level. */
  lemma DictionaryIsOneToOne()
    ensures forall level :: LevelKey(level) in LogLevelDictionary && LogLevelDictionary[LevelKey(level)] == level
    ensures forall k1, k2 | k1 in LogLevelDictionary && k2 in LogLevelDictionary && k1 != k2 ::
              LogLevelDictionary[k1] != LogLevelDictionary[k2]
  {
  }

  /** Lookup is case-sensitive: a name with any character outside 'A'..'Z' (a lower-case letter, say) finds nothing. */
  lemma LevelOfIsCaseSensitive(key: string)
    requires exists i :: 0 <= i < |key| && !('A' <= key[i] <= 'Z')
    ensures LevelOf(key).None?
  {
  }
}
