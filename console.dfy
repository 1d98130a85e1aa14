/** `handle_js_console`: how a console message's level is named, and which
    levels are reported. */
module JsConsole {

  const LevelNames: seq<string> := ["Info", "Warning", "Error"]

  /** The level's name; a level outside the table is `Unknown`. */
  function LevelName(level: int): string {
    if 0 <= level < |LevelNames| then LevelNames[level] else "Unknown"
  }

  /** Each name in the table belongs to exactly one level. */
  lemma LevelNameIff(level: int)
    ensures LevelName(level) == "Info" <==> level == 0
    ensures LevelName(level) == "Warning" <==> level == 1
    ensures LevelName(level) == "Error" <==> level == 2
  {
  }

  /** Only warnings, errors and levels above them are reported. */
  predicate Reported(level: int) {
    level > 0
  }

  /** A reported message is never named `Info`, and every level the table
      names above `Info` is reported. */
  lemma ReportedLevels(level: int)
    ensures Reported(level) ==> LevelName(level) in {"Warning", "Error", "Unknown"}
    ensures LevelName(level) in {"Warning", "Error"} ==> Reported(level)
  {
  }
}
