/** The terminal screen (TerminalView.swift): an input field whose text is handed
    to the shell manager on submit, a send button that is disabled while the field
    is empty, and the connection indicator in the header. */
module Terminal {
  import opened Strings
  import opened Palette
  import opened TerminalModel
  import opened Shell

  /** .disabled(inputText.isEmpty) on the send button. */
  function SendDisabled(input: string): (disabled: bool)
    ensures disabled <==> |input| == 0
  {
    input == ""
  }

  /** The send arrow is gray exactly while sending is disabled, green otherwise. */
  function SendColor(input: string): (c: Color)
    ensures c == Gray <==> SendDisabled(input)
    ensures c == Green <==> !SendDisabled(input)
  {
    if input == "" then Gray else Green
  }

  /** The header's status dot and label follow isConnected. */
  function ConnectionIndicator(connected: bool): (r: (Color, string))
    ensures r.0 == Green <==> connected
    ensures r.0 == Red <==> !connected
    ensures r.1 == "Connected" <==> connected
    ensures r.1 == "Disconnected" <==> !connected
  {
    if connected then (Green, "Connected") else (Red, "Disconnected")
  }

  /** What a submit does to the field and the session: nothing for an empty field;
      otherwise the field is emptied and its text is executed once. */
  function Submitted(input: string, st: ShellState, active: bool, shell: Backend): (r: (string, ShellState))
    ensures r.0 == ""
    ensures SendDisabled(input) ==> r.1 == st
  {
    if input == "" then ("", st) else ("", CommandExecuted(st, input, active, shell))
  }

  /** A submitted line reaches the history exactly as typed; for an empty field
      or while the exploit is inactive nothing is recorded and nothing reaches
      the backend. */
  lemma SubmitRecordsInput(input: string, st: ShellState, active: bool, shell: Backend)
    ensures var r := Submitted(input, st, active, shell).1;
      r.history == (if input != "" && active then st.history + [input] else st.history)
    ensures var r := Submitted(input, st, active, shell).1;
      input == "" || !active ==> r.issued == st.issued && r.cwd == st.cwd
  {
    if input != "" {
      ExecuteRecordsCommand(st, input, active, shell);
    }
  }

  /** The send button is disabled exactly when a submit would leave the session as
      it was: any non-empty field reaches the shell manager, which records it or
      prints an error. */
  lemma SubmitChangesSessionUnlessDisabled(input: string, st: ShellState, active: bool, shell: Backend)
    ensures Submitted(input, st, active, shell).1 == st <==> SendDisabled(input)
  {
    if input != "" {
      ExecuteRecordsCommand(st, input, active, shell);
      var r := CommandExecuted(st, input, active, shell);
      if active {
        assert |r.history| == |st.history| + 1;
      } else {
        assert |r.lines| == |st.lines| + 1;
      }
    }
  }

  class TerminalView {
    const shellManager: ShellManager
    var inputText: string

    /** The shell manager keeps its history cursor in range. */
    predicate Valid()
      reads this, shellManager
    {
      shellManager.Valid()
    }

    constructor ()
      ensures inputText == "" && fresh(shellManager) && shellManager.State() == Initial() && Valid()
    {
      shellManager := new ShellManager();
      inputText := "";
    }

    /** onAppear: start the session. */
    method OnAppear(active: bool, shell: Backend)
      requires Valid()
      modifies shellManager`isConnected, shellManager`outputLines, shellManager`currentDirectory, shellManager`issued
      ensures shellManager.State() == ShellStarted(old(shellManager.State()), active, shell) && Valid()
    {
      shellManager.StartShell(active, shell);
    }

    /** onDisappear: end the session. */
    method OnDisappear()
      requires Valid()
      modifies shellManager`isConnected, shellManager`outputLines
      ensures shellManager.State() == ShellStopped(old(shellManager.State())) && Valid()
    {
      shellManager.StopShell();
    }

    /** The trash button in the header. */
    method TapClear()
      requires Valid()
      modifies shellManager`outputLines
      ensures shellManager.State() == OutputCleared(old(shellManager.State())) && Valid()
    {
      shellManager.ClearOutput();
    }

    /** executeCommand: ignore an empty field; otherwise empty the field and hand
        its text to the shell manager once. */
    method ExecuteCommand(active: bool, shell: Backend)
      requires Valid()
      modifies this`inputText, shellManager`outputLines, shellManager`commandHistory,
        shellManager`historyIndex, shellManager`currentDirectory, shellManager`issued
      ensures (inputText, shellManager.State()) == Submitted(old(inputText), old(shellManager.State()), active, shell)
      ensures Valid()
    {
      if inputText == "" {
        return;
      }
      var command := inputText;
      inputText := "";
      shellManager.ExecuteCommand(command, active, shell);
    }
  }
}
