/** The terminal's command processor (ShellManager.swift).

    A submitted line is recorded in the command history and echoed; after
    trimming, an empty line prints one empty line, a built-in (help, clear, cls,
    history, exit, quit, cd, matched case-insensitively on the first
    space-delimited word) is handled locally, and anything else is forwarded to
    the privileged backend, prefixed with a change into the virtual current
    directory, and its output is split into lines.

    The backend's executeShellCommand is the oracle parameter shell, and
    isExploitActive is the parameter active. The field issued records the shell
    commands handed to the backend, in order, so that which operations reach the
    backend can be stated. The spec functions below describe every operation on a
    ShellState value; the class ShellManager performs the same steps in place and
    is proved to agree with them. */
module Shell {
  import opened Strings
  import opened Paths
  import opened TerminalModel

  /** The answer of executeShellCommand for a command line, if any. */
  type Backend = string -> Option<string>

  const Home: string := "/var/root"

  datatype ShellState = ShellState(
    lines: seq<TerminalLine>,
    connected: bool,
    cwd: string,
    history: seq<string>,
    cursor: int,
    issued: seq<string>)

  /** The history cursor points at an entry or just past the last one. */
  predicate CursorInRange(st: ShellState) {
    0 <= st.cursor <= |st.history|
  }

  const Banner: seq<TerminalLine> := [
    SystemLine("SEPwn Terminal v1.0"),
    SystemLine("Real exploit shell - All commands executed with root privileges"),
    SystemLine("Type 'help' for available commands"),
    SystemLine("")
  ]

  function Initial(): ShellState {
    ShellState(Banner, false, Home, [], 0, [])
  }

  /** One output line per text, in order. */
  function Outputs(texts: seq<string>): (r: seq<TerminalLine>)
    ensures |r| == |texts|
    decreases |texts|
  {
    if texts == [] then [] else Outputs(texts[..|texts| - 1]) + [OutputLine(texts[|texts| - 1])]
  }

  /** Line k of the output lines shows text k. */
  lemma {:induction false} OutputsAt(texts: seq<string>)
    ensures forall k :: 0 <= k < |texts| ==> Outputs(texts)[k] == OutputLine(texts[k])
    decreases |texts|
  {
    if texts != [] {
      OutputsAt(texts[..|texts| - 1]);
    }
  }

  // ---------------------------------------------------------------------------
  // Classifying a submitted line

  /** The text after its leading spaces. */
  function DropSpaces(s: string): (r: string)
    ensures |r| <= |s| && r == s[|s| - |r|..]
    ensures r != [] ==> r[0] != ' '
    decreases |s|
  {
    if s != [] && s[0] == ' ' then DropSpaces(s[1..]) else s
  }

  /** split(separator: " ", maxSplits: 1): the first word and the text after the
      space that ends it; leading spaces are skipped, the rest is kept verbatim. */
  function SplitHead(command: string): (r: (string, string))
    ensures forall k :: 0 <= k < |r.0| ==> r.0[k] != ' '
    ensures r.0 == "" ==> r.1 == ""
    ensures command != [] && command[0] != ' ' ==>
      command == r.0 + " " + r.1 || (command == r.0 && r.1 == "")
  {
    var t := DropSpaces(command);
    assert command != [] && command[0] != ' ' ==> t == command;
    match IndexOf(t, ' ')
    case None =>
      assert forall k :: 0 <= k < |t| ==> t[k] in t;
      (t, "")
    case Some(i) =>
      var head := t[..i];
      assert forall k :: 0 <= k < |head| ==> head[k] in head;
      assert t == head + " " + t[i + 1..];
      (head, t[i + 1..])
  }

  datatype Action = Blank | Help | Clear | ListHistory | Exit | ChangeDir(arg: string) | Run(command: string)

  /** handleBuiltinCommand's dispatch on the lower-cased first word. */
  function Builtin(command: string): (a: Option<Action>)
    ensures a.Some? ==> !a.value.Blank? && !a.value.Run?
  {
    var (head, args) := SplitHead(command);
    Named(Lower(head), args)
  }

  /** The built-in a lower-cased first word names, given the rest of the line. */
  function Named(name: string, args: string): (a: Option<Action>)
    ensures a.Some? ==> !a.value.Blank? && !a.value.Run?
  {
    if name == "help" then Some(Help)
    else if name == "clear" || name == "cls" then Some(Clear)
    else if name == "history" then Some(ListHistory)
    else if name == "exit" || name == "quit" then Some(Exit)
    else if name == "cd" then Some(ChangeDir(args))
    else None
  }

  /** What processCommand does with a submitted line. */
  function Classify(command: string): (a: Action)
    ensures a == Blank <==> Trim(command) == ""
    ensures a.Run? ==> a.command == Trim(command) != "" && Builtin(Trim(command)).None?
    ensures !a.Blank? && !a.Run? ==> Builtin(Trim(command)) == Some(a)
  {
    var trimmed := Trim(command);
    if trimmed == "" then Blank
    else match Builtin(trimmed)
      case Some(b) => b
      case None => Run(trimmed)
  }

  /** A line is blank exactly when every character of it is whitespace. */
  lemma BlankIffWhitespace(command: string)
    ensures Classify(command) == Blank <==> forall k :: 0 <= k < |command| ==> IsWhitespace(command[k])
  {
    TrimEmpty(command);
  }

  /** A line starting with "cd " is always the cd built-in, with the rest as its
      argument. */
  lemma CdPrefixIsBuiltin(command: string)
    requires HasPrefix(command, "cd ")
    ensures Builtin(command) == Some(ChangeDir(command[3..]))
  {
    assert command[0] == 'c';
    assert command[..2] == "cd";
    IndexOfAt(command, ' ', 2);
  }

  /** So a forwarded command never starts with "cd ", and the directory refresh
      after a forwarded "cd " command is dead code. */
  lemma ForwardedNeverStartsWithCd(command: string)
    ensures Classify(command).Run? ==> !HasPrefix(Classify(command).command, "cd ")
  {
    var t := Trim(command);
    if HasPrefix(t, "cd ") {
      CdPrefixIsBuiltin(t);
    }
  }

  /** The words handleBuiltinCommand answers to, once lower-cased. */
  const BuiltinWords: set<string> := {"help", "clear", "cls", "history", "exit", "quit", "cd"}

  /** Exactly the seven built-in words name an action, each its own; only cd
      takes the rest of the line as its argument. */
  lemma NamedWords(name: string, args: string)
    ensures Named(name, args).Some? <==> name in BuiltinWords
    ensures name == "help" ==> Named(name, args) == Some(Help)
    ensures name == "clear" || name == "cls" ==> Named(name, args) == Some(Clear)
    ensures name == "history" ==> Named(name, args) == Some(ListHistory)
    ensures name == "exit" || name == "quit" ==> Named(name, args) == Some(Exit)
    ensures name == "cd" ==> Named(name, args) == Some(ChangeDir(args))
  {
  }

  /** A line that starts with a word, followed by a space or by nothing, is looked
      up by that word lower-cased, with the text after the space as arguments. */
  lemma BuiltinWord(word: string, args: string)
    requires word != [] && ' ' !in word
    ensures Builtin(word + " " + args) == Named(Lower(word), args)
    ensures Builtin(word) == Named(Lower(word), "")
  {
    assert word[0] in word;
    var c := word + " " + args;
    assert c[..|word|] == word;
    IndexOfAt(c, ' ', |word|);
    assert c[|word| + 1..] == args;
  }

  /** The first word is matched without regard to case: two lines whose first
      words differ only in the case of their letters are the same built-in, or
      both none. */
  lemma BuiltinIgnoresCase(word: string, word': string, args: string)
    requires word != [] && ' ' !in word && ' ' !in word'
    requires Lower(word) == Lower(word')
    ensures Builtin(word + " " + args) == Builtin(word' + " " + args)
    ensures Builtin(word) == Builtin(word')
  {
    BuiltinWord(word, args);
    BuiltinWord(word', args);
  }

  /** "CD" in capitals is the cd built-in, whatever follows it. */
  lemma CapitalCd(cd: string, args: string)
    requires cd == "CD"
    ensures Builtin(cd + " " + args) == Some(ChangeDir(args))
  {
    assert ' ' !in cd;
    BuiltinWord(cd, args);
    assert Lower(cd) == "cd";
  }

  /** "History" with a capital is the history built-in, whatever follows it. */
  lemma CapitalHistory(history: string, args: string)
    requires history == "History"
    ensures Builtin(history + " " + args) == Some(ListHistory)
  {
    assert ' ' !in history;
    BuiltinWord(history, args);
    assert Lower(history) == "history";
  }

  // ---------------------------------------------------------------------------
  // cd

  /** changeDirectory's target for an argument, against the current directory. */
  function ResolveCd(cwd: string, arg: string): string {
    if arg == "" || arg == "~" then Home
    else if HasPrefix(arg, "/") then arg
    else if arg == ".." then DropLastComponent(cwd)
    else cwd + "/" + arg
  }

  /** "cd .." goes one segment up, to a canonical path ("/" at the top). */
  lemma ResolveCdUp(cwd: string)
    ensures var c := Components(cwd);
      Components(ResolveCd(cwd, "..")) == (if c == [] then [] else c[..|c| - 1])
    ensures Canonical(ResolveCd(cwd, ".."))
  {
    assert ".."[..1] == ".";
    assert ResolveCd(cwd, "..") == DropLastComponent(cwd);
    DropLastComponents(cwd);
  }

  /** Any other relative argument appends its segments to the current directory's. */
  lemma ResolveCdRelative(cwd: string, arg: string)
    requires arg != "" && arg != "~" && arg != ".." && !HasPrefix(arg, "/")
    ensures Components(ResolveCd(cwd, arg)) == Components(cwd) + Components(arg)
    ensures HasPrefix(ResolveCd(cwd, arg), cwd)
  {
    ComponentsConcat(cwd, arg);
    var t := cwd + "/" + arg;
    assert t[..|cwd|] == cwd;
  }

    /** "~" and "" go home from anywhere, an absolute argument is taken as given,
      and at the root any other relative argument gets a doubled separator. */
  lemma ResolveCdAtRoot(cwd: string, arg: string)
    ensures ResolveCd(cwd, "~") == Home && ResolveCd(cwd, "") == Home
    ensures HasPrefix(arg, "/") ==> ResolveCd(cwd, arg) == arg
    ensures arg != "" && arg != "~" && arg != ".." && !HasPrefix(arg, "/") ==>
      ResolveCd("/", arg) == "//" + arg
  {
    if HasPrefix(arg, "/") {
      assert arg[0] == '/' && arg != "~";
    }
    assert "/" + "/" + arg == "//" + arg;
  }

  /** The backend probe that decides whether a cd target exists. */
  function CdProbe(target: string): string {
    "test -d '" + target + "' && echo 'exists'"
  }

  function DirectoryChanged(st: ShellState, arg: string, shell: Backend): ShellState {
    var target := ResolveCd(st.cwd, arg);
    var probe := CdProbe(target);
    var st1 := st.(issued := st.issued + [probe]);
    match shell(probe)
    case None =>
      st1.(lines := st.lines + [ErrorLine("-bash: cd: " + arg + ": Permission denied or not found")])
    case Some(result) =>
      if Contains(result, "exists") then st1.(cwd := target, lines := st.lines + [OutputLine("")])
      else st1.(lines := st.lines + [ErrorLine("-bash: cd: " + arg + ": No such file or directory")])
  }

  // ---------------------------------------------------------------------------
  // Forwarded commands

  /** The command line handed to the backend for a command typed in directory cwd. */
  function Forwarded(cwd: string, command: string): (full: string)
    ensures HasSuffix(full, command)
    ensures full == command <==> cwd == "/" || cwd == Home
    ensures full != command ==> HasPrefix(full, "cd '" + cwd + "' && ")
  {
    if cwd != "/" && cwd != Home then
      var prefix := "cd '" + cwd + "' && ";
      assert (prefix + command)[..|prefix|] == prefix;
      assert (prefix + command)[|prefix|..] == command;
      prefix + command
    else command
  }

  /** The lines shown for the backend's output: every piece between newlines when
      there is only one, else only the non-empty pieces. */
  function KeptLines(output: string): (kept: seq<string>)
    ensures forall k :: 0 <= k < |kept| ==> '\n' !in kept[k]
  {
    var pieces := Split(output, '\n');
    NonEmptyFrom(pieces);
    if |pieces| == 1 then pieces else NonEmpty(pieces)
  }

  /** The lines KeptLines keeps among the first i pieces. */
  function KeptPrefix(pieces: seq<string>, i: nat): seq<string>
    requires i <= |pieces|
  {
    if |pieces| == 1 then pieces[..i] else NonEmpty(pieces[..i])
  }

  lemma KeptPrefixStep(pieces: seq<string>, i: nat)
    requires i < |pieces|
    ensures pieces[i] != "" || |pieces| == 1 ==> KeptPrefix(pieces, i + 1) == KeptPrefix(pieces, i) + [pieces[i]]
    ensures pieces[i] == "" && |pieces| != 1 ==> KeptPrefix(pieces, i + 1) == KeptPrefix(pieces, i)
  {
    assert pieces[..i + 1][..i] == pieces[..i];
  }

  /** One more text shown after lines that already show texts. */
  lemma OutputsAppend(before: seq<TerminalLine>, texts: seq<string>, x: string)
    ensures before + Outputs(texts) + [OutputLine(x)] == before + Outputs(texts + [x])
  {
    assert (texts + [x])[..|texts|] == texts;
    assert Outputs(texts + [x]) == Outputs(texts) + [OutputLine(x)];
  }

  /** The kept lines are the pieces between newlines, without the empty ones
      unless there is only one piece. */
  lemma KeptLinesMembers(output: string)
    ensures var pieces := Split(output, '\n');
      forall x :: x in KeptLines(output) <==> x in pieces && (x != "" || |pieces| == 1)
  {
    NonEmptyMembers(Split(output, '\n'));
  }

  /** Output without a newline is shown as one line, even when empty. */
  lemma KeptSingleLine(output: string)
    requires '\n' !in output
    ensures KeptLines(output) == [output]
  {
  }

  /** Output whose lines are all non-empty is shown line for line, and nothing of
      it is lost: the shown lines joined by newlines are the output. */
  lemma KeptLinesRoundTrip(output: string)
    requires forall x :: x in Split(output, '\n') ==> x != ""
    ensures KeptLines(output) == Split(output, '\n')
    ensures Join(KeptLines(output), '\n') == output
  {
    var pieces := Split(output, '\n');
    forall k | 0 <= k < |pieces| ensures pieces[k] != "" {
      assert pieces[k] in pieces;
    }
    NonEmptyIdentity(pieces);
    JoinSplit(output, '\n');
  }

  function CommandForwarded(st: ShellState, command: string, shell: Backend): ShellState {
    var full := Forwarded(st.cwd, command);
    var shown := match shell(full)
      case Some(output) => Outputs(KeptLines(output))
      case None => [ErrorLine("Command execution failed")];
    var refresh := HasPrefix(command, "cd ");
    var pwd := shell("pwd");
    st.(lines := st.lines + shown + [OutputLine("")],
        cwd := if refresh && pwd.Some? then Trim(pwd.value) else st.cwd,
        issued := st.issued + [full] + (if refresh then ["pwd"] else []))
  }

  // ---------------------------------------------------------------------------
  // help and history

  const HelpLines: seq<string> := [
    "SEPwn Terminal - Real Exploit Shell",
    "All commands executed with root privileges via posix_spawn",
    "",
    "Built-in:",
    "  help      - Show this help message",
    "  clear     - Clear terminal screen",
    "  history   - Show command history",
    "  cd <dir>  - Change directory",
    "  exit      - Exit terminal (use app close)",
    "",
    "All other commands are executed directly on the system.",
    "Examples:",
    "  ls -la /var/root",
    "  cat /etc/passwd",
    "  ps aux",
    "  killall SpringBoard",
    "  apt update",
    "  dpkg -l"
  ]

  /** "  <i+1>  <command>" */
  function HistoryLine(i: nat, command: string): string {
    "  " + NatToString(i + 1) + "  " + command
  }

  /** The numbered lines of the first n history entries. */
  function Numbered(history: seq<string>, n: nat): (r: seq<string>)
    requires n <= |history|
    ensures |r| == n
  {
    if n == 0 then [] else Numbered(history, n - 1) + [HistoryLine(n - 1, history[n - 1])]
  }

  /** Line k of the listing numbers entry k. */
  lemma {:induction false} NumberedAt(history: seq<string>, n: nat)
    requires n <= |history|
    ensures forall k :: 0 <= k < n ==> Numbered(history, n)[k] == HistoryLine(k, history[k])
  {
    if n > 0 {
      NumberedAt(history, n - 1);
    }
  }

  lemma NumberedStep(history: seq<string>, n: nat)
    requires n < |history|
    ensures Outputs(Numbered(history, n + 1)) == Outputs(Numbered(history, n)) + [OutputLine(HistoryLine(n, history[n]))]
  {
    var a := Numbered(history, n);
    var b := a + [HistoryLine(n, history[n])];
    assert Numbered(history, n + 1) == b;
    assert b[..|b| - 1] == a;
  }

  function HistoryListing(history: seq<string>): seq<string> {
    if history == [] then ["No commands in history"] else Numbered(history, |history|)
  }

  /** Entries are numbered from one, so no two listed entries carry the same
      number, whatever the commands are. */
  lemma HistoryNumbersDistinct(i: nat, j: nat, a: string, b: string)
    requires i != j
    ensures HistoryLine(i, a)[..2] == "  "
    ensures var m, n := NatToString(i + 1), NatToString(j + 1);
      HistoryLine(i, a)[2..2 + |m|] == m && HistoryLine(j, b)[2..2 + |n|] == n && m != n
  {
    NatToStringInjective(i + 1, j + 1);
    var m := NatToString(i + 1);
    assert HistoryLine(i, a) == "  " + m + ("  " + a);
    var n := NatToString(j + 1);
    assert HistoryLine(j, b) == "  " + n + ("  " + b);
  }

  // ---------------------------------------------------------------------------
  // The operations on a state

  function ActionPerformed(st: ShellState, action: Action, shell: Backend): ShellState {
    match action
    case Blank => st.(lines := st.lines + [OutputLine("")])
    case Help => st.(lines := st.lines + Outputs(HelpLines))
    case Clear => OutputCleared(st)
    case ListHistory => st.(lines := st.lines + Outputs(HistoryListing(st.history)))
    case Exit => st.(lines := st.lines + [OutputLine("Use the app's close button to exit")])
    case ChangeDir(arg) => DirectoryChanged(st, arg, shell)
    case Run(command) => CommandForwarded(st, command, shell)
  }

  /** processCommand, step by step: trim, then a blank line, a built-in or a
      forwarded command. */
  function Processed(st: ShellState, command: string, shell: Backend): ShellState {
    var t := Trim(command);
    if t == "" then st.(lines := st.lines + [OutputLine("")])
    else match Builtin(t)
      case Some(a) => ActionPerformed(st, a, shell)
      case None => CommandForwarded(st, t, shell)
  }

  function CommandExecuted(st: ShellState, command: string, active: bool, shell: Backend): ShellState {
    if !active then st.(lines := st.lines + [ErrorLine("Error: Exploit not active")])
    else
      var history := st.history + [command];
      var echoed := st.(history := history, cursor := |history|, lines := st.lines + [CommandLine(command)]);
      Processed(echoed, command, shell)
  }

  /** processCommand performs exactly the action the line is classified as. */
  lemma ProcessedIsClassified(st: ShellState, command: string, shell: Backend)
    ensures Processed(st, command, shell) == ActionPerformed(st, Classify(command), shell)
  {
  }

  function OutputCleared(st: ShellState): ShellState {
    st.(lines := [SystemLine("Terminal cleared")])
  }

  const SessionStart: seq<TerminalLine> := [
    SystemLine("Shell session started with root privileges"),
    SystemLine("uid=0(root) gid=0(wheel)"),
    SystemLine("")
  ]

  function ShellStarted(st: ShellState, active: bool, shell: Backend): ShellState {
    if !active then st.(lines := st.lines + [ErrorLine("Error: Exploit not active. Run jailbreak first.")])
    else
      var pwd := shell("pwd");
      st.(connected := true,
          lines := st.lines + SessionStart,
          cwd := if pwd.Some? then Trim(pwd.value) else st.cwd,
          issued := st.issued + ["pwd"])
  }

  function ShellStopped(st: ShellState): ShellState {
    st.(connected := false, lines := st.lines + [SystemLine("Shell session ended")])
  }

  /** getPreviousCommand: step back and return the entry stepped onto. */
  function PreviousCommand(st: ShellState): (r: (Option<string>, ShellState))
    requires CursorInRange(st)
    ensures CursorInRange(r.1) && r.1.history == st.history
    ensures r.0.None? <==> st.cursor == 0
    ensures r.0.Some? ==> r.1.cursor == st.cursor - 1 && r.0.value == r.1.history[r.1.cursor]
    ensures r.0.None? ==> r.1 == st
  {
    if st.cursor <= 0 then (None, st)
    else (Some(st.history[st.cursor - 1]), st.(cursor := st.cursor - 1))
  }

  /** getNextCommand: step forward, if an entry follows, and return it. */
  function NextCommand(st: ShellState): (r: (Option<string>, ShellState))
    requires CursorInRange(st)
    ensures CursorInRange(r.1) && r.1.history == st.history
    ensures r.0.None? <==> st.cursor >= |st.history| - 1
    ensures r.0.Some? ==> r.1.cursor == st.cursor + 1 && r.0.value == r.1.history[r.1.cursor]
    ensures r.0.None? ==> r.1 == st
  {
    if st.cursor < |st.history| - 1 then (Some(st.history[st.cursor + 1]), st.(cursor := st.cursor + 1))
    else (None, st)
  }

  // ---------------------------------------------------------------------------
  // Properties of the operations

  /** Local actions change only the screen; cd and forwarded commands keep the
      history as well. */
  lemma ActionKeepsHistory(st: ShellState, action: Action, shell: Backend)
    ensures var r := ActionPerformed(st, action, shell);
      r.history == st.history && r.cursor == st.cursor && r.connected == st.connected
    ensures var r := ActionPerformed(st, action, shell);
      !action.ChangeDir? && !action.Run? ==> r.cwd == st.cwd && r.issued == st.issued
    ensures var r := ActionPerformed(st, action, shell);
      !action.Clear? ==> st.lines <= r.lines
  {
    var r := ActionPerformed(st, action, shell);
    match action
    case Blank =>
    case Help =>
    case Clear =>
    case ListHistory =>
    case Exit =>
    case ChangeDir(arg) =>
      assert r.lines[..|st.lines|] == st.lines;
    case Run(c) =>
      assert r.lines[..|st.lines|] == st.lines;
  }

  /** executeCommand: inactive, one error line and nothing else; active, the line
      joins the history, the cursor moves past it and it is echoed first (only
      clear then wipes the screen). */
  lemma ExecuteRecordsCommand(st: ShellState, command: string, active: bool, shell: Backend)
    ensures var r := CommandExecuted(st, command, active, shell);
      !active ==> r == st.(lines := st.lines + [ErrorLine("Error: Exploit not active")])
    ensures var r := CommandExecuted(st, command, active, shell);
      active ==> r.history == st.history + [command] && r.cursor == |r.history| && CursorInRange(r)
    ensures var r := CommandExecuted(st, command, active, shell);
      active && Classify(command) != Clear ==> st.lines + [CommandLine(command)] <= r.lines
    ensures var r := CommandExecuted(st, command, active, shell);
      active && Classify(command) == Clear ==> r.lines == [SystemLine("Terminal cleared")]
  {
    if active {
      var history := st.history + [command];
      var echoed := st.(history := history, cursor := |history|, lines := st.lines + [CommandLine(command)]);
      ProcessedIsClassified(echoed, command, shell);
      ActionKeepsHistory(echoed, Classify(command), shell);
    }
  }

  /** A blank or whitespace-only line is still recorded, prints one empty line and
      never reaches the backend. */
  lemma BlankLineIsLocal(st: ShellState, command: string, shell: Backend)
    requires Trim(command) == ""
    ensures var r := CommandExecuted(st, command, true, shell);
      && r.history == st.history + [command]
      && r.lines == st.lines + [CommandLine(command), OutputLine("")]
      && r.issued == st.issued && r.cwd == st.cwd
  {
  }

  /** Built-ins other than cd never reach the backend and never move the directory. */
  lemma BuiltinsStayLocal(st: ShellState, command: string, active: bool, shell: Backend)
    requires !Classify(command).ChangeDir? && !Classify(command).Run?
    ensures var r := CommandExecuted(st, command, active, shell);
      r.issued == st.issued && r.cwd == st.cwd
  {
    ExecuteRecordsCommand(st, command, active, shell);
    if active {
      var history := st.history + [command];
      var echoed := st.(history := history, cursor := |history|, lines := st.lines + [CommandLine(command)]);
      ProcessedIsClassified(echoed, command, shell);
      ActionKeepsHistory(echoed, Classify(command), shell);
    }
  }

  /** The error text of a failed cd names its argument. */
  lemma CdErrorNamesArgument(arg: string, reason: string)
    ensures Contains("-bash: cd: " + arg + reason, arg)
  {
    var head := "-bash: cd: ";
    var text := head + arg + reason;
    assert text[|head|..|head| + |arg|] == arg;
    ContainsSlice(text, |head|, |head| + |arg|);
  }

  /** cd asks the backend once, and moves to the target exactly when the answer
      contains "exists"; otherwise it prints one error line naming the argument
      and stays. */
  lemma CdCommitsOnlyIfExists(st: ShellState, arg: string, shell: Backend)
    ensures var target := ResolveCd(st.cwd, arg);
      var answer := shell(CdProbe(target));
      var r := DirectoryChanged(st, arg, shell);
      && r.issued == st.issued + [CdProbe(target)]
      && r.history == st.history && r.cursor == st.cursor
      && (answer.Some? && Contains(answer.value, "exists") ==>
            r.cwd == target && r.lines == st.lines + [OutputLine("")])
      && (!(answer.Some? && Contains(answer.value, "exists")) ==>
            && r.cwd == st.cwd && |r.lines| == |st.lines| + 1
            && r.lines[..|st.lines|] == st.lines
            && r.lines[|st.lines|].kind == Error
            && Contains(r.lines[|st.lines|].text, arg))
  {
    var target := ResolveCd(st.cwd, arg);
    var answer := shell(CdProbe(target));
    var r := DirectoryChanged(st, arg, shell);
    if answer.None? {
      CdErrorNamesArgument(arg, ": Permission denied or not found");
      assert r.lines[..|st.lines|] == st.lines;
    } else if !Contains(answer.value, "exists") {
      CdErrorNamesArgument(arg, ": No such file or directory");
      assert r.lines[..|st.lines|] == st.lines;
    }
  }

  /** A forwarded command (which never starts with "cd ", by
      ForwardedNeverStartsWithCd) reaches the backend once, in the current
      directory; the directory never changes; an empty line always ends the reply,
      also after a failure. */
  lemma ForwardedCommandReply(st: ShellState, command: string, shell: Backend)
    requires !HasPrefix(command, "cd ")
    ensures var full := Forwarded(st.cwd, command);
      var r := CommandForwarded(st, command, shell);
      && r.issued == st.issued + [full]
      && r.cwd == st.cwd && r.history == st.history && r.cursor == st.cursor
      && (shell(full).None? ==>
            r.lines == st.lines + [ErrorLine("Command execution failed"), OutputLine("")])
      && (shell(full).Some? ==>
            r.lines == st.lines + Outputs(KeptLines(shell(full).value)) + [OutputLine("")])
  {
  }

  /** With a non-empty history, "history" lists every entry, numbered from one,
      and ends with the latest. */
  lemma HistoryListsEveryEntry(st: ShellState, shell: Backend)
    requires st.history != []
    ensures var r := ActionPerformed(st, ListHistory, shell);
      var n := |st.history|;
      && r.lines == st.lines + Outputs(Numbered(st.history, n))
      && |r.lines| > 0 && r.lines[|r.lines| - 1] == OutputLine(HistoryLine(n - 1, st.history[n - 1]))
  {
  }

  /** A submitted "history" finds itself in the history, so the "No commands in
      history" line never follows a submitted line. */
  lemma HistoryListsItself(st: ShellState, command: string, shell: Backend)
    requires Classify(command) == ListHistory
    ensures var r := CommandExecuted(st, command, true, shell);
      |r.lines| > 0 && r.lines[|r.lines| - 1] == OutputLine(HistoryLine(|st.history|, command))
  {
    var h := st.history + [command];
    var echoed := st.(history := h, cursor := |h|, lines := st.lines + [CommandLine(command)]);
    ProcessedIsClassified(echoed, command, shell);
    assert CommandExecuted(st, command, true, shell) == ActionPerformed(echoed, ListHistory, shell);
    HistoryListsEveryEntry(echoed, shell);
  }

  /** Right after a submitted line, stepping back recalls that line. */
  lemma PreviousRecallsLast(st: ShellState, command: string, shell: Backend)
    ensures var r := CommandExecuted(st, command, true, shell);
      CursorInRange(r) && PreviousCommand(r).0 == Some(command)
  {
    ExecuteRecordsCommand(st, command, true, shell);
  }

  /** Stepping back and then forward returns to the same entry and state. */
  lemma PreviousThenNext(st: ShellState)
    requires CursorInRange(st) && 0 < st.cursor < |st.history|
    ensures NextCommand(PreviousCommand(st).1) == (Some(st.history[st.cursor]), st)
  {
  }

  /** Every operation keeps the history cursor in range. */
  lemma CursorStaysInRange(st: ShellState, command: string, active: bool, shell: Backend)
    requires CursorInRange(st)
    ensures CursorInRange(CommandExecuted(st, command, active, shell))
    ensures CursorInRange(ShellStarted(st, active, shell))
    ensures CursorInRange(ShellStopped(st)) && CursorInRange(OutputCleared(st))
    ensures CursorInRange(Initial())
  {
    ExecuteKeepsCursor(st, command, active, shell);
  }

  /** A command keeps the history cursor in range. */
  lemma ExecuteKeepsCursor(st: ShellState, command: string, active: bool, shell: Backend)
    requires CursorInRange(st)
    ensures CursorInRange(CommandExecuted(st, command, active, shell))
  {
    ExecuteRecordsCommand(st, command, active, shell);
  }

  // ---------------------------------------------------------------------------
  // The manager

  class ShellManager {
    var outputLines: seq<TerminalLine>
    var isConnected: bool
    var currentDirectory: string
    var commandHistory: seq<string>
    var historyIndex: int
    /** The shell commands handed to the backend, in order. */
    var issued: seq<string>

    function State(): ShellState
      reads this
    {
      ShellState(outputLines, isConnected, currentDirectory, commandHistory, historyIndex, issued)
    }

    predicate Valid()
      reads this
    {
      CursorInRange(State())
    }

    constructor ()
      ensures State() == Initial() && Valid()
    {
      outputLines := [];
      isConnected := false;
      currentDirectory := Home;
      commandHistory := [];
      historyIndex := 0;
      issued := [];
      new;
      AddSystemLine("SEPwn Terminal v1.0");
      AddSystemLine("Real exploit shell - All commands executed with root privileges");
      AddSystemLine("Type 'help' for available commands");
      AddSystemLine("");
    }

    method StartShell(active: bool, shell: Backend)
      requires Valid()
      modifies this`isConnected, this`outputLines, this`currentDirectory, this`issued
      ensures State() == ShellStarted(old(State()), active, shell) && Valid()
    {
      CursorStaysInRange(State(), "", active, shell);
      if !active {
        AddErrorLine("Error: Exploit not active. Run jailbreak first.");
        return;
      }
      isConnected := true;
      AddSystemLine("Shell session started with root privileges");
      AddSystemLine("uid=0(root) gid=0(wheel)");
      AddSystemLine("");
      assert outputLines == old(outputLines) + SessionStart;
      issued := issued + ["pwd"];
      var pwd := shell("pwd");
      if pwd.Some? {
        var dir := Trim(pwd.value);
        currentDirectory := dir;
      }
    }

    method StopShell()
      requires Valid()
      modifies this`isConnected, this`outputLines
      ensures State() == ShellStopped(old(State())) && Valid()
    {
      isConnected := false;
      AddSystemLine("Shell session ended");
    }

    method ExecuteCommand(command: string, active: bool, shell: Backend)
      requires Valid()
      modifies this`outputLines, this`commandHistory, this`historyIndex, this`currentDirectory, this`issued
      ensures State() == CommandExecuted(old(State()), command, active, shell) && Valid()
    {
      ghost var st := State();
      if !active {
        AddErrorLine("Error: Exploit not active");
      } else {
        commandHistory := commandHistory + [command];
        historyIndex := |commandHistory|;
        outputLines := outputLines + [NewLine(command, true, Command)];
        ProcessCommand(command, shell);
      }
      ExecuteKeepsCursor(st, command, active, shell);
    }

    method ClearOutput()
      modifies this`outputLines
      ensures State() == OutputCleared(old(State()))
      ensures Valid() == old(Valid())
    {
      outputLines := [];
      AddSystemLine("Terminal cleared");
    }

    method GetPreviousCommand() returns (r: Option<string>)
      requires Valid()
      modifies this`historyIndex
      ensures (r, State()) == PreviousCommand(old(State())) && Valid()
    {
      if historyIndex <= 0 {
        return None;
      }
      historyIndex := historyIndex - 1;
      r := Some(commandHistory[historyIndex]);
    }

    method GetNextCommand() returns (r: Option<string>)
      requires Valid()
      modifies this`historyIndex
      ensures (r, State()) == NextCommand(old(State())) && Valid()
    {
      if historyIndex >= |commandHistory| - 1 {
        return None;
      }
      historyIndex := historyIndex + 1;
      r := Some(commandHistory[historyIndex]);
    }

    method ProcessCommand(command: string, shell: Backend)
      modifies this`outputLines, this`currentDirectory, this`issued
      ensures State() == Processed(old(State()), command, shell)
    {
      var trimmedCommand := Trim(command);
      if trimmedCommand == "" {
        AddOutputLine("");
        return;
      }
      var handled := HandleBuiltinCommand(trimmedCommand, shell);
      if handled {
        return;
      }
      ExecuteRealCommand(trimmedCommand, shell);
    }

    method HandleBuiltinCommand(command: string, shell: Backend) returns (handled: bool)
      modifies this`outputLines, this`currentDirectory, this`issued
      ensures handled <==> Builtin(command).Some?
      ensures handled ==> State() == ActionPerformed(old(State()), Builtin(command).value, shell)
      ensures !handled ==> State() == old(State())
    {
      var (cmd, args) := SplitHead(command);
      var name := Lower(cmd);
      handled := Dispatch(name, args, shell);
    }

    /** handleBuiltinCommand's switch on the lower-cased first word. */
    method Dispatch(name: string, args: string, shell: Backend) returns (handled: bool)
      modifies this`outputLines, this`currentDirectory, this`issued
      ensures handled <==> Named(name, args).Some?
      ensures handled ==> State() == ActionPerformed(old(State()), Named(name, args).value, shell)
      ensures !handled ==> State() == old(State())
    {
      handled := true;
      if name == "help" {
        ShowHelp();
      } else if name == "clear" || name == "cls" {
        ClearOutput();
      } else if name == "history" {
        ShowHistory();
      } else if name == "exit" || name == "quit" {
        AddOutputLine("Use the app's close button to exit");
      } else if name == "cd" {
        ChangeDirectory(args, shell);
      } else {
        handled := false;
      }
    }

    method ExecuteRealCommand(command: string, shell: Backend)
      modifies this`outputLines, this`currentDirectory, this`issued
      ensures State() == CommandForwarded(old(State()), command, shell)
    {
      var fullCommand: string;
      if currentDirectory != "/" && currentDirectory != Home {
        fullCommand := "cd '" + currentDirectory + "' && " + command;
      } else {
        fullCommand := command;
      }
      issued := issued + [fullCommand];

      var output := shell(fullCommand);
      if output.Some? {
        ShowOutput(output.value);
      } else {
        AddErrorLine("Command execution failed");
      }

      if HasPrefix(command, "cd ") {
        issued := issued + ["pwd"];
        var pwd := shell("pwd");
        if pwd.Some? {
          var dir := Trim(pwd.value);
          currentDirectory := dir;
        }
      }

      AddOutputLine("");
    }

    /** The output's lines, as KeptLines chooses them. */
    method ShowOutput(output: string)
      modifies this`outputLines
      ensures outputLines == old(outputLines) + Outputs(KeptLines(output))
    {
      var lines := Split(output, '\n');
      var i := 0;
      while i < |lines|
        invariant 0 <= i <= |lines|
        invariant outputLines == old(outputLines) + Outputs(KeptPrefix(lines, i))
      {
        KeptPrefixStep(lines, i);
        if lines[i] != "" || |lines| == 1 {
          OutputsAppend(old(outputLines), KeptPrefix(lines, i), lines[i]);
          AddOutputLine(lines[i]);
        }
        i := i + 1;
      }
      assert lines[..|lines|] == lines;
    }

    method ShowHelp()
      modifies this`outputLines
      ensures outputLines == old(outputLines) + Outputs(HelpLines)
    {
      AddOutputLines(HelpLines);
    }

    method ShowHistory()
      modifies this`outputLines
      ensures outputLines == old(outputLines) + Outputs(HistoryListing(commandHistory))
    {
      if commandHistory == [] {
        AddOutputLine("No commands in history");
        return;
      }
      var index := 0;
      while index < |commandHistory|
        invariant 0 <= index <= |commandHistory|
        invariant outputLines == old(outputLines) + Outputs(Numbered(commandHistory, index))
      {
        AddOutputLine(HistoryLine(index, commandHistory[index]));
        NumberedStep(commandHistory, index);
        index := index + 1;
      }
    }

    method ChangeDirectory(path: string, shell: Backend)
      modifies this`outputLines, this`currentDirectory, this`issued
      ensures State() == DirectoryChanged(old(State()), path, shell)
    {
      var targetPath := ResolveCd(currentDirectory, path);
      var probe := "test -d '" + targetPath + "' && echo 'exists'";
      issued := issued + [probe];
      var result := shell(probe);
      if result.Some? {
        if Contains(result.value, "exists") {
          currentDirectory := targetPath;
          AddOutputLine("");
        } else {
          AddErrorLine("-bash: cd: " + path + ": No such file or directory");
        }
      } else {
        AddErrorLine("-bash: cd: " + path + ": Permission denied or not found");
      }
    }

    method AddOutputLines(texts: seq<string>)
      modifies this`outputLines
      ensures outputLines == old(outputLines) + Outputs(texts)
    {
      var i := 0;
      while i < |texts|
        invariant 0 <= i <= |texts|
        invariant outputLines == old(outputLines) + Outputs(texts[..i])
      {
        AddOutputLine(texts[i]);
        assert texts[..i + 1][..i] == texts[..i];
        i := i + 1;
      }
      assert texts[..|texts|] == texts;
    }

    method AddOutputLine(text: string)
      modifies this`outputLines
      ensures outputLines == old(outputLines) + [OutputLine(text)]
    {
      outputLines := outputLines + [NewLine(text, kind := Output)];
    }

    method AddErrorLine(text: string)
      modifies this`outputLines
      ensures outputLines == old(outputLines) + [ErrorLine(text)]
    {
      outputLines := outputLines + [NewLine(text, kind := Error)];
    }

    method AddSystemLine(text: string)
      modifies this`outputLines
      ensures outputLines == old(outputLines) + [SystemLine(text)]
    {
      outputLines := outputLines + [NewLine(text, kind := System)];
    }
  }
}
