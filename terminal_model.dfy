/** The line model of the terminal screen (TerminalView.swift). */
module TerminalModel {
  import opened Palette

  datatype LineType = Command | Output | Error | System

  /** One terminal line; the UUID identity is not modelled. */
  datatype TerminalLine = TerminalLine(text: string, isCommand: bool, kind: LineType)

  /** TerminalLine.init: a plain output line unless told otherwise. */
  function NewLine(text: string, isCommand: bool := false, kind: LineType := Output): (line: TerminalLine)
    ensures line.text == text && line.isCommand == isCommand && line.kind == kind
  {
    TerminalLine(text, isCommand, kind)
  }

  /** The text color: red exactly for errors, yellow exactly for system lines,
      white for commands and output. */
  function LineColor(line: TerminalLine): (c: Color)
    ensures c == Red <==> line.kind == Error
    ensures c == Yellow <==> line.kind == System
    ensures c == White <==> line.kind == Command || line.kind == Output
  {
    match line.kind
    case Command => White
    case Output => White
    case Error => Red
    case System => Yellow
  }

  function OutputLine(text: string): TerminalLine { NewLine(text) }
  function ErrorLine(text: string): TerminalLine { NewLine(text, kind := Error) }
  function SystemLine(text: string): TerminalLine { NewLine(text, kind := System) }
  function CommandLine(text: string): TerminalLine { NewLine(text, true, Command) }

  /** A line built with the initializer's defaults is an output line that is not
      a command. */
  lemma DefaultsAreOutput(text: string)
    ensures NewLine(text).kind == Output && !NewLine(text).isCommand
    ensures LineColor(NewLine(text)) == White
  {
  }
}
