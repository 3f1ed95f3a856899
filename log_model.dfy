/** The log entry shown in the main screen's log list (ContentView.swift). */
module LogModel {
  import opened Strings
  import opened Palette

  datatype LogLevel = Info | Success | Warning | Error

  /** One log line; the wall-clock timestamp is not modelled. */
  datatype LogEntry = LogEntry(level: LogLevel, message: string)

  /** The emoji shown before an entry. Each level has its own icon: LevelOfIcon
      reads the level back from it. */
  function LevelIcon(level: LogLevel): (icon: string)
    ensures LevelOfIcon(icon) == Some(level)
  {
    match level
    case Info => "\U{2139}\U{FE0F}"
    case Success => "\U{2705}"
    case Warning => "\U{26A0}\U{FE0F}"
    case Error => "\U{274C}"
  }

  function LevelOfIcon(icon: string): Option<LogLevel> {
    if icon == "\U{2139}\U{FE0F}" then Some(Info)
    else if icon == "\U{2705}" then Some(Success)
    else if icon == "\U{26A0}\U{FE0F}" then Some(Warning)
    else if icon == "\U{274C}" then Some(Error)
    else None
  }

  /** Different levels never share an icon. */
  lemma LevelIconInjective(a: LogLevel, b: LogLevel)
    ensures LevelIcon(a) == LevelIcon(b) ==> a == b
  {
  }

  /** The text color of an entry: red exactly for errors, green exactly for
      successes, orange exactly for warnings, the primary color for the rest. */
  function LevelColor(level: LogLevel): (c: Color)
    ensures c == Red <==> level == Error
    ensures c == Green <==> level == Success
    ensures c == Orange <==> level == Warning
    ensures c == Primary <==> level == Info
  {
    match level
    case Info => Primary
    case Success => Green
    case Warning => Orange
    case Error => Red
  }
}
