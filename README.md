# SEPwn orchestration core in Dafny

SEPwn is an iOS app. It drives a privileged backend (`ExploitBridge`) through a
staged jailbreak run, offers a root terminal, and has a file browser with an
editor and a hex viewer. This project models the app's orchestration layer and
proves properties of it. The backend is opaque, so every backend call is an
oracle parameter of the model:

- a verdict (`bool`);
- an `Option` answer;
- a function from a command or path to an answer.

One module per Swift source file:

| module | source | what it holds |
|---|---|---|
| `Pipeline` | `JailbreakManager.swift` | the stage table, `startJailbreak`, `executeStage`, `log`, `clearLogs`, `statusColor`, `buttonTitle` |
| `LogModel` | `ContentView.swift` | `LogEntry` with `levelIcon` and `levelColor` |
| `Content` | `ContentView.swift` | the run button and the Clear button |
| `TerminalModel` | `TerminalView.swift` | `TerminalLine`, its initializer defaults and its color |
| `Terminal` | `TerminalView.swift` | the input guard of `executeCommand`, the send button, the header indicator |
| `Shell` | `ShellManager.swift` | history, cursor, built-in dispatch, `cd` resolution, command forwarding, output splitting |
| `FileBrowser` | `FileManagerView.swift` | the `FileItem` tables, the older stack-based `FileSystemManager`, search, breadcrumbs, the action sheet |
| `Navigation` | `FileSystemManager.swift` | the navigator with back/forward history, `goUp`, `refresh`, `renameItem` and the breadcrumb helpers |
| `Editor` | `FileEditorView.swift` | the editor's load/save/cancel logic and the hex viewer's row encoder |

Two further modules hold shared helpers:

- `Strings`: Swift's `split`, `components(separatedBy:)`, `joined`, trimming, `lowercased`, `contains` and integer interpolation.
- `Paths`: `NSString`'s path helpers, stated as simple functions. Their behaviour is assumed, not reproduced from Foundation.

Each state-changing Swift class is a Dafny `class` whose fields are the Swift
class's stored properties, with these differences:

- Added as model state:
  - `JailbreakManager.resprings` counts the respring requests;
  - `ShellManager.issued` records the commands handed to the backend, in order;
  - `FileEditor.dismissed` stands for calling the environment's `dismiss` action.
- Kept from the Swift declarations: `JailbreakManager.stages` (its `private let stages`), and `FileEditor.filePath` and `fileManager` (the view's `let filePath` and its observed `fileManager`).
- Omitted:
  - `JailbreakManager.showPasswordPrompt`, `kernelBase` and `kernelSlide`;
  - `FileEditorView.showingSaveConfirm`, which nothing reads or sets after its declaration;
  - `TerminalView.isInputFocused`.

Each of its methods ensures that the new state equals a pure function of the old state
and the oracle answers, for example
`State() == NavigatedTo(old(State()), path, active, isDir, list)`. The
properties the app promises are then proved as lemmas about those functions.

Loops stay loops:

- `startJailbreak`'s loop over the stages;
- the output-line loop of `executeRealCommand`;
- `showHistory`'s numbering loop;
- the hex viewer's `stride` loop.

Progress is counted in hundredths of the bar, so the ten stage weights sum to
100.

Where the intended design and the code differ, the model follows the code:

- A whitespace-only line is pushed onto the shell history. The history append at `ShellManager.swift:65` runs before the trim at `:98` (`Shell.BlankLineIsLocal`).
- `cd` is a built-in, yet it does reach the backend once, through its `test -d` probe (`Shell.CdCommitsOnlyIfExists`).
- The `pwd` refresh after a forwarded command starting with `cd ` (`ShellManager.swift:168-173`) cannot run. Every such line is caught as the `cd` built-in first (`Shell.ForwardedNeverStartsWithCd`).
- An empty output line follows every forwarded command, also after "Command execution failed".
- The navigator records a path in its history before loading it. The current path changes only when the listing succeeds, so `currentPath == navigationHistory[historyIndex]` holds only while loads succeed:
  - `Navigation.SyncKeptWhileLoadsSucceed` proves it for that case;
  - `Navigation.FailedBackLeavesPath` shows the mismatch after a failed load.
- After a failed save, `errorMessage` is set, so the editor's body shows its load-error view with "Failed to save file". That view's "Try Again" reloads the file over the unsaved text (`Editor.FailedSaveHidesEditor`).
- `pathForComponent` clips its prefix at the number of segments, but a negative index traps in Swift's `prefix`. The model requires `index >= 0`.

## Model

| member | source | states |
|---|---|---|
| Pipeline.WeightsFillTheBar | SEPwn/Sources/JailbreakManager.swift:50-61 | the table has ten stages whose weights sum to the whole bar (100 hundredths) |
| Pipeline.WeightSumMonotone | SEPwn/Sources/JailbreakManager.swift:97-100 | progress never decreases as more stages complete |
| Pipeline.ProgressWithinBar | SEPwn/Sources/JailbreakManager.swift:97-100 | every partial progress value is at most the full bar |
| Pipeline.MilestonesRise | SEPwn/Sources/JailbreakManager.swift:97-100 | the published progress values never go down; the last one is the progress reached; a run of the whole stage table ends at the full bar (100) |
| Pipeline.MilestonesExtend | SEPwn/Sources/JailbreakManager.swift:97-100 | one more successful stage publishes exactly one more value, the new sum |
| Pipeline.Dispatch | SEPwn/Sources/JailbreakManager.swift:148-172 | the switch has an action exactly for the indices 0 to 9 |
| Pipeline.DispatchDistinct | SEPwn/Sources/JailbreakManager.swift:148-172 | no two indices call the same stage action |
| Pipeline.DispatchFollowsTable | SEPwn/Sources/JailbreakManager.swift:149-169 | case i calls the action of row i of the stage table, as the case comments name it; also the table at JailbreakManager.swift:50-61 |
| Pipeline.StageResultFollowsDispatch | SEPwn/Sources/JailbreakManager.swift:148-172 | with one report per stage, an index with a case gets its action's report, and an index in the default arm succeeds with "OK" and writes nothing |
| Pipeline.FirstFailure | SEPwn/Sources/JailbreakManager.swift:87-95 | the stage a run stops at fails and every earlier stage succeeded; none is found iff all succeed |
| Pipeline.FirstFailureAt | SEPwn/Sources/JailbreakManager.swift:87-95 | a failing stage with only successes before it is the one the run stops at |
| Pipeline.CountAndName | SEPwn/Sources/JailbreakManager.swift:82 | the announcement after the stage number starts with "/" |
| Pipeline.NumeralPrefix | SEPwn/Sources/JailbreakManager.swift:82 | two numerals followed by non-digits are equal when the texts are |
| Pipeline.BracketedNumeral | SEPwn/Sources/JailbreakManager.swift:82 | "[m/…" and "[n/…" agree only when m = n |
| Pipeline.EnteringMessagesDistinct | SEPwn/Sources/JailbreakManager.swift:82 | no two stages are announced with the same "[i+1/n] name..." line |
| Pipeline.StatusColor | SEPwn/Sources/JailbreakManager.swift:29-37 | green iff complete, orange iff running and not complete, blue iff idle |
| Pipeline.ButtonTitle | SEPwn/Sources/JailbreakManager.swift:39-47 | the title has the same precedence: complete, then running, then idle |
| Pipeline.JailbreakManager.constructor | SEPwn/Sources/JailbreakManager.swift:15-22 | the initial stage, message, progress, flags, empty log and password; the manager runs the ten-row stage table |
| Pipeline.JailbreakManager.Log | SEPwn/Sources/JailbreakManager.swift:139-146 | appends exactly one entry with the given level and message |
| Pipeline.JailbreakManager.ClearLogs | SEPwn/Sources/JailbreakManager.swift:121-123 | the log is empty afterwards |
| Pipeline.JailbreakManager.ExecuteStage | SEPwn/Sources/JailbreakManager.swift:148-172 | returns the verdict and message of the report `StageResult` picks for the index, and appends the log lines its action wrote (`StageResultFollowsDispatch` ties the pick to the switch) |
| Pipeline.JailbreakManager.PerformRespring | SEPwn/Sources/JailbreakManager.swift:463-470 | asks the backend to respring once, between its two log lines |
| Pipeline.JailbreakManager.AnnounceRun | SEPwn/Sources/JailbreakManager.swift:71-74 | appends the four intro lines |
| Pipeline.JailbreakManager.RunStage | SEPwn/Sources/JailbreakManager.swift:79-95 | the stage becomes current with "Stage i of n"; it is announced, its action runs, and its success or failure line is logged |
| Pipeline.JailbreakManager.AnnounceCompletion | SEPwn/Sources/JailbreakManager.swift:110-114 | appends the five completion lines |
| Pipeline.JailbreakManager.Begin | SEPwn/Sources/JailbreakManager.swift:67-74 | the run is marked running and not complete, progress is reset, and the four intro lines are logged |
| Pipeline.JailbreakManager.Advance | SEPwn/Sources/JailbreakManager.swift:97-100 | after stage i succeeds, the bar shows the weight sum of stages 0..i and that value is published |
| Pipeline.JailbreakManager.Fail | SEPwn/Sources/JailbreakManager.swift:91-94 | "Failed" becomes current with the failing stage's message and the run stops |
| Pipeline.JailbreakManager.Complete | SEPwn/Sources/JailbreakManager.swift:103-118 | progress is exactly 100, "Jailbroken", complete and not running; the five completion lines, then one respring |
| Pipeline.JailbreakManager.RunStages | SEPwn/Sources/JailbreakManager.swift:76-101 | runs stages in table order up to the first failure, each once; progress and the published values are the weight sums of the completed stages; the failing stage adds nothing |
| Pipeline.JailbreakManager.StartJailbreak | SEPwn/Sources/JailbreakManager.swift:64-119 | a call while running changes nothing; on a failure at k: stages 0..k ran, "Failed", the stage's message, not complete, no respring; on success: progress is exactly 100, "Jailbroken", complete, the five completion lines, then one respring |
| Pipeline.JailbreakManager.Run | SEPwn/Sources/JailbreakManager.swift:67-118 | the whole run past the guard: on a failure at k, stages 0..k ran, progress is the weight sum before k, "Failed" with the stage's message, no respring; on success, every stage ran, progress 100, "Jailbroken", the intro, stage, completion and respring lines in that order |
| Pipeline.JailbreakManager.SetRootPassword | SEPwn/Sources/JailbreakManager.swift:125-136 | records the password and logs the request and the backend's answer |
| LogModel.LevelIcon | SEPwn/Sources/ContentView.swift:185-192 | total; `LevelOfIcon` reads the level back from the icon |
| LogModel.LevelIconInjective | SEPwn/Sources/ContentView.swift:185-192 | different levels never share an icon |
| LogModel.LevelColor | SEPwn/Sources/ContentView.swift:194-201 | red iff error, green iff success, orange iff warning, primary iff info |
| Content.RunButtonBackground | SEPwn/Sources/ContentView.swift:109 | gray iff the button is disabled (`RunButtonDisabled`, ContentView.swift:113), blue otherwise |
| Content.TapRun | SEPwn/Sources/ContentView.swift:92-96 | a tap starts a run iff the button is not disabled (ContentView.swift:113); a disabled tap changes nothing; a started run ends, complete iff every stage succeeded; a completed run always shows its status text, a failed one iff the failing stage's message is non-empty (`ShowsStatusMessage`, ContentView.swift:64-65) |
| Content.TapClear | SEPwn/Sources/ContentView.swift:125-127 | Clear empties the log and changes nothing else |
| TerminalModel.NewLine | SEPwn/Sources/TerminalView.swift:182-186 | the line carries the given text, flag and type; the defaults are not a command and output |
| TerminalModel.LineColor | SEPwn/Sources/TerminalView.swift:173-180 | red iff error, yellow iff system, white iff command or output |
| TerminalModel.DefaultsAreOutput | SEPwn/Sources/TerminalView.swift:182 | a line built with the defaults is a white output line, not a command |
| Terminal.SendColor | SEPwn/Sources/TerminalView.swift:120 | the arrow is gray iff sending is disabled (`SendDisabled`, TerminalView.swift:122), green otherwise |
| Terminal.ConnectionIndicator | SEPwn/Sources/TerminalView.swift:50-52 | green and "Connected" iff connected, red and "Disconnected" otherwise |
| Terminal.Submitted | SEPwn/Sources/TerminalView.swift:130-137 | the field is empty afterwards; while sending is disabled a submit changes nothing |
| Terminal.SubmitChangesSessionUnlessDisabled | SEPwn/Sources/TerminalView.swift:122-137 | a submit leaves the session unchanged iff the send button is disabled: any non-empty text is recorded or answered with an error |
| Terminal.SubmitRecordsInput | SEPwn/Sources/TerminalView.swift:130-137 | the exact text joins the history once iff it is non-empty and the exploit is active; otherwise nothing reaches the backend and the directory stays |
| Terminal.TerminalView.constructor | SEPwn/Sources/TerminalView.swift:9-10 | an empty field and a fresh shell manager in its initial state; `Valid()` holds |
| Terminal.TerminalView.OnAppear | SEPwn/Sources/TerminalView.swift:25-27 | appearing starts the shell session; keeps `Valid()` |
| Terminal.TerminalView.OnDisappear | SEPwn/Sources/TerminalView.swift:28-30 | disappearing ends it; keeps `Valid()` |
| Terminal.TerminalView.TapClear | SEPwn/Sources/TerminalView.swift:58-60 | the trash button clears the output; keeps `Valid()` |
| Terminal.TerminalView.ExecuteCommand | SEPwn/Sources/TerminalView.swift:130-137 | the new field and session are those `Submitted` gives; keeps `Valid()` |
| Shell.Outputs | SEPwn/Sources/ShellManager.swift:249-251 | one output line per text |
| Shell.OutputsAt | SEPwn/Sources/ShellManager.swift:249-251 | line k shows text k |
| Shell.DropSpaces | SEPwn/Sources/ShellManager.swift:115 | the rest of the text after its leading spaces, not starting with a space |
| Shell.SplitHead | SEPwn/Sources/ShellManager.swift:115-117 | the first word has no space; with no first word there are no arguments; a line not starting with a space is the word, a space and the arguments, or the word alone |
| Shell.Builtin | SEPwn/Sources/ShellManager.swift:114-143 | a recognised built-in is never a blank line or a forwarded command |
| Shell.Named | SEPwn/Sources/ShellManager.swift:119-142 | the same, for the lower-cased first word |
| Shell.NamedWords | SEPwn/Sources/ShellManager.swift:119-142 | exactly help, clear, cls, history, exit, quit and cd name a built-in; help shows help, clear and cls clear, history lists, exit and quit print the close hint, cd changes directory with the rest of the line |
| Shell.BuiltinWord | SEPwn/Sources/ShellManager.swift:115-119 | a line made of a space-free word and then a space and arguments, or the word alone, is looked up by the word lower-cased, with the arguments verbatim |
| Shell.BuiltinIgnoresCase | SEPwn/Sources/ShellManager.swift:115-119 | two lines whose first words differ only in letter case are the same built-in, or both none |
| Shell.CapitalCd | SEPwn/Sources/ShellManager.swift:136-138 | "CD <args>" is the cd built-in with those arguments |
| Shell.CapitalHistory | SEPwn/Sources/ShellManager.swift:128-130 | "History <args>" lists the history |
| Shell.Classify | SEPwn/Sources/ShellManager.swift:97-112 | blank iff the trimmed line is empty; forwarded exactly the trimmed line when it is no built-in; otherwise the built-in it names |
| Shell.BlankIffWhitespace | SEPwn/Sources/ShellManager.swift:98-103 | a line is blank iff every character of it is whitespace |
| Shell.CdPrefixIsBuiltin | SEPwn/Sources/ShellManager.swift:136-138 | a line starting with "cd " is the cd built-in with the rest as its argument |
| Shell.ForwardedNeverStartsWithCd | SEPwn/Sources/ShellManager.swift:168-173 | a forwarded command never starts with "cd ", so the pwd refresh cannot run |
| Shell.ResolveCdUp | SEPwn/Sources/ShellManager.swift:223-229 | ".." drops the last segment ("/" at the top) and gives a canonical path |
| Shell.ResolveCdRelative | SEPwn/Sources/ShellManager.swift:230-231 | any other relative argument appends its segments after the current directory's |
| Shell.ResolveCdAtRoot | SEPwn/Sources/ShellManager.swift:219-231 | from any directory "~" and "" go home and an absolute argument is taken as given; at "/" any other relative argument except ".." gets a doubled separator |
| Shell.Forwarded | SEPwn/Sources/ShellManager.swift:148-153 | the command ends the line; it is unchanged iff the directory is "/" or "/var/root", else prefixed with `cd '<dir>' && ` |
| Shell.KeptLines | SEPwn/Sources/ShellManager.swift:157-162 | no kept line contains a newline |
| Shell.KeptLinesMembers | SEPwn/Sources/ShellManager.swift:157-162 | a line is kept iff it is a piece between newlines, and non-empty unless it is the only piece |
| Shell.KeptSingleLine | SEPwn/Sources/ShellManager.swift:159 | output without a newline is shown as one line, even when empty |
| Shell.KeptLinesRoundTrip | SEPwn/Sources/ShellManager.swift:157-162 | output with no empty piece is shown line for line, and joining the lines back gives the output |
| Shell.Numbered | SEPwn/Sources/ShellManager.swift:211-213 | one listing line per entry |
| Shell.NumberedAt | SEPwn/Sources/ShellManager.swift:211-213 | listing line k is "  k+1  entry k" |
| Shell.NumberedStep | SEPwn/Sources/ShellManager.swift:211-213 | each loop step prints exactly the next numbered line |
| Shell.HistoryNumbersDistinct | SEPwn/Sources/ShellManager.swift:212 | different entries carry different numbers, whatever the commands |
| Shell.ProcessedIsClassified | SEPwn/Sources/ShellManager.swift:97-112 | processCommand performs exactly the action the line is classified as |
| Shell.PreviousCommand | SEPwn/Sources/ShellManager.swift:82-86 | none at index 0, else steps back and returns that entry; the cursor stays in range and the history is unchanged |
| Shell.NextCommand | SEPwn/Sources/ShellManager.swift:89-93 | none when the index is at least count-1, else steps forward and returns that entry |
| Shell.ActionKeepsHistory | SEPwn/Sources/ShellManager.swift:114-143 | built-ins keep the history, cursor and connection; only cd and forwarded commands reach the backend or move the directory; only clear removes lines |
| Shell.ExecuteRecordsCommand | SEPwn/Sources/ShellManager.swift:58-73 | inactive: one error line, nothing else; active: the raw line joins the history, the cursor moves past it, and it is echoed (only clear then wipes the screen) |
| Shell.BlankLineIsLocal | SEPwn/Sources/ShellManager.swift:98-103 | a whitespace-only line is recorded, prints one empty line and never reaches the backend; also the history append at ShellManager.swift:65 |
| Shell.BuiltinsStayLocal | SEPwn/Sources/ShellManager.swift:106-108 | built-ins other than cd never reach the backend and never move the directory |
| Shell.CdErrorNamesArgument | SEPwn/Sources/ShellManager.swift:240-243 | the cd error text contains the argument |
| Shell.CdCommitsOnlyIfExists | SEPwn/Sources/ShellManager.swift:216-245 | one probe; the directory moves to the target iff the answer contains "exists"; otherwise one error line naming the argument |
| Shell.ForwardedCommandReply | SEPwn/Sources/ShellManager.swift:145-176 | one backend call in the directory's context; the kept lines or "Command execution failed"; always a final empty line; directory and history unchanged |
| Shell.HistoryListsEveryEntry | SEPwn/Sources/ShellManager.swift:205-214 | with a non-empty history, every entry is listed numbered from one, ending with the latest |
| Shell.HistoryListsItself | SEPwn/Sources/ShellManager.swift:205-214 | a submitted "history" lists itself last, so "No commands in history" never follows a submitted line; also the history append at ShellManager.swift:65 |
| Shell.PreviousRecallsLast | SEPwn/Sources/ShellManager.swift:82-86 | right after a submit, stepping back recalls that line; also the submit at ShellManager.swift:65-66 |
| Shell.PreviousThenNext | SEPwn/Sources/ShellManager.swift:82-93 | stepping back then forward returns to the same entry and state |
| Shell.CursorStaysInRange | SEPwn/Sources/ShellManager.swift:82-93 | every operation keeps the cursor in [0, count]; also ShellManager.swift:21 and :66 |
| Shell.ShellManager.constructor | SEPwn/Sources/ShellManager.swift:24-29 | the four banner lines, home directory, empty history; `Valid()` holds |
| Shell.ShellManager.StartShell | SEPwn/Sources/ShellManager.swift:34-49 | inactive: one error line; active: connected, three session lines, the trimmed pwd answer as directory; requires and keeps `Valid()`, the cursor in range |
| Shell.ShellManager.StopShell | SEPwn/Sources/ShellManager.swift:52-55 | disconnected, with one line; requires and keeps `Valid()`, the cursor in range |
| Shell.ShellManager.ExecuteCommand | SEPwn/Sources/ShellManager.swift:58-73 | the new state is `CommandExecuted` of the old one; requires and keeps `Valid()`, the cursor in range |
| Shell.ShellManager.ClearOutput | SEPwn/Sources/ShellManager.swift:76-79 | exactly one line is left, "Terminal cleared"; keeps `Valid()` exactly when it held |
| Shell.ShellManager.GetPreviousCommand | SEPwn/Sources/ShellManager.swift:82-86 | agrees with `PreviousCommand`; keeps `Valid()` |
| Shell.ShellManager.GetNextCommand | SEPwn/Sources/ShellManager.swift:89-93 | agrees with `NextCommand`; keeps `Valid()` |
| Shell.ShellManager.ProcessCommand | SEPwn/Sources/ShellManager.swift:97-112 | trim, then a blank line, a built-in or a forwarded command |
| Shell.ShellManager.HandleBuiltinCommand | SEPwn/Sources/ShellManager.swift:114-143 | handled iff the line names a built-in, which is then performed; otherwise nothing changes |
| Shell.ShellManager.Dispatch | SEPwn/Sources/ShellManager.swift:119-142 | the switch on the lower-cased first word: handled iff the word names a built-in, whose action is then performed; any other word changes nothing |
| Shell.ShellManager.ExecuteRealCommand | SEPwn/Sources/ShellManager.swift:145-176 | agrees with `CommandForwarded` |
| Shell.ShellManager.ShowOutput | SEPwn/Sources/ShellManager.swift:157-162 | the loop appends exactly the kept lines as output lines |
| Shell.ShellManager.ShowHelp | SEPwn/Sources/ShellManager.swift:178-203 | appends the help text's lines |
| Shell.ShellManager.ShowHistory | SEPwn/Sources/ShellManager.swift:205-214 | appends "No commands in history" or the numbered listing |
| Shell.ShellManager.ChangeDirectory | SEPwn/Sources/ShellManager.swift:216-245 | agrees with `DirectoryChanged` |
| Shell.ShellManager.AddOutputLines | SEPwn/Sources/ShellManager.swift:200-202 | appends one output line per text |
| Shell.ShellManager.AddOutputLine | SEPwn/Sources/ShellManager.swift:249-251 | appends one output line |
| Shell.ShellManager.AddErrorLine | SEPwn/Sources/ShellManager.swift:253-255 | appends one error line |
| Shell.ShellManager.AddSystemLine | SEPwn/Sources/ShellManager.swift:257-259 | appends one system line |
| FileBrowser.SizeString | SEPwn/Sources/FileManagerView.swift:568-570 | the "<size> B" text is given iff size < 1024 |
| FileBrowser.SizeStringReadsBack | SEPwn/Sources/FileManagerView.swift:569-570 | that text is the size's numeral followed by " B", and the numeral reads back as the size |
| FileBrowser.Icon | SEPwn/Sources/FileManagerView.swift:580-583 | a directory always gets "folder.fill" |
| FileBrowser.IconColor | SEPwn/Sources/FileManagerView.swift:610-613 | a directory always gets blue |
| FileBrowser.ExtensionNeverFolder | SEPwn/Sources/FileManagerView.swift:586-629 | no extension maps to the folder icon or to blue |
| FileBrowser.FolderIffDirectory | SEPwn/Sources/FileManagerView.swift:580-630 | the folder icon, and blue, mark exactly the directories |
| FileBrowser.IconDeterminesColor | SEPwn/Sources/FileManagerView.swift:580-630 | an item's color is a function of its icon (the reference mapping `ColorOfIcon`) |
| FileBrowser.ExtensionTablesAgree | SEPwn/Sources/FileManagerView.swift:586-629 | the two extension tables agree on every extension |
| FileBrowser.IconOfNamedFile | SEPwn/Sources/FileManagerView.swift:585-615 | the looked-up extension of "base.ext" is ext lower-cased, and empty when the base is empty |
| FileBrowser.DotFileIsPlain | SEPwn/Sources/FileManagerView.swift:585-630 | a dot-file such as ".sh" gets the default document icon and gray |
| FileBrowser.Refreshed | SEPwn/Sources/FileManagerView.swift:661-692 | on success the listing replaces the items and there is no error; on failure "Failed to list directory" and no items; never loading afterwards; path and stack unchanged |
| FileBrowser.WentBack | SEPwn/Sources/FileManagerView.swift:653-659 | succeeds iff the stack has more than one entry; otherwise nothing changes |
| FileBrowser.StackInvariant | SEPwn/Sources/FileManagerView.swift:641-659 | the current path is always the stack's top, and the stack is never empty |
| FileBrowser.NavigatePushes | SEPwn/Sources/FileManagerView.swift:647-651 | navigating pushes the path and makes it current |
| FileBrowser.BackUndoesNavigate | SEPwn/Sources/FileManagerView.swift:647-659 | navigating and then going back restores the path and the stack |
| FileBrowser.FileSystemManager.constructor | SEPwn/Sources/FileManagerView.swift:636-645 | starts at "/" with stack ["/"] and refreshes |
| FileBrowser.FileSystemManager.NavigateTo | SEPwn/Sources/FileManagerView.swift:647-651 | agrees with `Navigated` |
| FileBrowser.FileSystemManager.GoBack | SEPwn/Sources/FileManagerView.swift:653-659 | agrees with `WentBack` |
| FileBrowser.FileSystemManager.Refresh | SEPwn/Sources/FileManagerView.swift:661-692 | agrees with `Refreshed` |
| FileBrowser.Search | SEPwn/Sources/FileManagerView.swift:726-731 | no results when the backend fails; every result is a non-empty line |
| FileBrowser.SearchKeepsEveryLine | SEPwn/Sources/FileManagerView.swift:730 | a line is a result iff it is a non-empty line of the output |
| FileBrowser.SearchRoundTrip | SEPwn/Sources/FileManagerView.swift:730 | output without empty lines is returned in full: the results joined by newlines are the output |
| FileBrowser.Breadcrumb | SEPwn/Sources/FileManagerView.swift:219 | a breadcrumb is an absolute path |
| FileBrowser.BreadcrumbSegments | SEPwn/Sources/FileManagerView.swift:212-219 | breadcrumb i has the first i+1 segments, is canonical, and the last one is a canonical current path |
| FileBrowser.FileActionButtons | SEPwn/Sources/FileManagerView.swift:120-146 | Cancel is always last; Edit iff a non-directory is selected; Delete iff something is selected; only Cancel when nothing is |
| Navigation.Visit | SEPwn/Sources/FileSystemManager.swift:68-72 | the entries up to the index are kept, the path is appended and becomes current, and nothing lies ahead |
| Navigation.Back | SEPwn/Sources/FileSystemManager.swift:79-80 | the entries are unchanged; the index drops by one iff it can |
| Navigation.Forward | SEPwn/Sources/FileSystemManager.swift:86-87 | the entries are unchanged; the index rises by one iff it can |
| Navigation.BackForwardInverse | SEPwn/Sources/FileSystemManager.swift:78-89 | back and forward undo each other wherever they move |
| Navigation.TwoVisitsBackForward | SEPwn/Sources/FileSystemManager.swift:68-89 | after visiting A then B, back reaches A and forward returns to B |
| Navigation.HistoryExample | SEPwn/Sources/FileSystemManager.swift:68-89 | from ["/"], A, B, C, back, back, D gives ["/", A, D] standing on D; also the initial history at FileSystemManager.swift:19-20 |
| Navigation.Normalize | SEPwn/Sources/FileSystemManager.swift:51-59 | never empty; a non-empty path without a trailing "/" is unchanged; one trailing "/" is dropped from anything longer than "/" |
| Navigation.NormalizeIdempotent | SEPwn/Sources/FileSystemManager.swift:51-59 | normalising twice changes nothing unless the path ends in "//" |
| Navigation.NormalizeDropsOnlyOne | SEPwn/Sources/FileSystemManager.swift:57-58 | "/a//" becomes "/a/" and only a second pass gives "/a" |
| Navigation.NormalizeCanonical | SEPwn/Sources/FileSystemManager.swift:51-59 | a canonical path is already normalised |
| Navigation.PathComponents | SEPwn/Sources/FileSystemManager.swift:274-281 | "/" first, then exactly the current path's segments |
| Navigation.PathForComponent | SEPwn/Sources/FileSystemManager.swift:284-291 | always an absolute path |
| Navigation.BreadcrumbLeadsHome | SEPwn/Sources/FileSystemManager.swift:284-291 | component i leads to the path of the first i segments (clipped at their count) |
| Navigation.LastBreadcrumbIsCurrent | SEPwn/Sources/FileSystemManager.swift:274-291 | the last component of a canonical current path leads back to it |
| Navigation.BreadcrumbEndsInSegment | SEPwn/Sources/FileSystemManager.swift:274-291 | each component's path ends in that component's name |
| Navigation.BreadcrumbsAgree | SEPwn/Sources/FileSystemManager.swift:284-291 | the path bar's breadcrumb i (FileManagerView.swift:219) is pathForComponent(i+1) |
| Navigation.RenameStaysInDirectory | SEPwn/Sources/FileSystemManager.swift:176-178 | the rename target has the old path's parent segments followed by the new name's |
| Navigation.Loaded | SEPwn/Sources/FileSystemManager.swift:105-124 | on success the path becomes current with its items and no error; on failure "Failed to load directory", no items, path kept; never loading afterwards; history unchanged |
| Navigation.IndexStaysInBounds | SEPwn/Sources/FileSystemManager.swift:37-101 | every operation keeps 0 <= historyIndex < count; also the initial history at FileSystemManager.swift:19-20 |
| Navigation.RefusedNavigationKeepsPlace | SEPwn/Sources/FileSystemManager.swift:45-65 | an inactive exploit or a non-directory sets an error and keeps history, index, path and items |
| Navigation.AcceptedNavigationRecords | SEPwn/Sources/FileSystemManager.swift:68-74 | an accepted path is recorded even if its listing fails; the current path follows only on success |
| Navigation.BackForwardMoveByOne | SEPwn/Sources/FileSystemManager.swift:78-89 | the history list never changes; the index moves by one iff canGoBack / canGoForward; a successful load lands on that entry; otherwise a no-op; also canGoBack/canGoForward at FileSystemManager.swift:259-266 |
| Navigation.SyncKeptWhileLoadsSucceed | SEPwn/Sources/FileSystemManager.swift:68-124 | while every listing succeeds, the current path is the entry the index points at |
| Navigation.FailedBackLeavesPath | SEPwn/Sources/FileSystemManager.swift:79-81 | a failed load after going back leaves the current path behind the index; also the failing load at FileSystemManager.swift:116-121 |
| Navigation.UpGoesToParent | SEPwn/Sources/FileSystemManager.swift:92-96 | a no-op at "/"; otherwise navigates to the parent, which is recorded as given |
| Navigation.FileSystemManager.constructor | SEPwn/Sources/FileSystemManager.swift:15-39 | history ["/"] at index 0, then the root is loaded |
| Navigation.FileSystemManager.NavigateTo | SEPwn/Sources/FileSystemManager.swift:44-75 | agrees with `NavigatedTo` and keeps the index in bounds |
| Navigation.FileSystemManager.PushHistory | SEPwn/Sources/FileSystemManager.swift:67-72 | agrees with `Visit`: the entries after the current one are dropped, the path is appended and becomes current |
| Navigation.FileSystemManager.GoBack | SEPwn/Sources/FileSystemManager.swift:78-82 | agrees with `WentBack` |
| Navigation.FileSystemManager.GoForward | SEPwn/Sources/FileSystemManager.swift:85-89 | agrees with `WentForward` |
| Navigation.FileSystemManager.GoUp | SEPwn/Sources/FileSystemManager.swift:92-96 | agrees with `WentUp` |
| Navigation.FileSystemManager.Refresh | SEPwn/Sources/FileSystemManager.swift:99-101 | reloads the current path |
| Navigation.FileSystemManager.LoadDirectory | SEPwn/Sources/FileSystemManager.swift:105-124 | agrees with `Loaded` |
| Navigation.FileSystemManager.RenameItem | SEPwn/Sources/FileSystemManager.swift:176-184 | moves to the new name in the old parent; refreshes iff the move succeeded, otherwise nothing changes |
| Navigation.AtRootIffNoSegments | SEPwn/Sources/FileSystemManager.swift:269-281 | for a canonical current path, isAtRoot holds iff the path has no segments, iff the path bar holds only the "/" crumb |
| Editor.ReadOnlyFor | SEPwn/Sources/FileEditorView.swift:217 | read-only iff the permission string has no 'w' |
| Editor.Shown | SEPwn/Sources/FileEditorView.swift:38-44 | the editor is shown iff nothing is loading and there is no error |
| Editor.SaveButton | SEPwn/Sources/FileEditorView.swift:55-60 | hidden iff read-only; enabled iff writable, changed and not saving |
| Editor.LoadShowsFile | SEPwn/Sources/FileEditorView.swift:198-235 | a successful read shows the editor with the file's text and no unsaved changes; read-only follows the permissions when known |
| Editor.LoadFailures | SEPwn/Sources/FileEditorView.swift:204-232 | "Exploit not active" or "Failed to read file" is shown and the buffer is untouched |
| Editor.SaveOutcomes | SEPwn/Sources/FileEditorView.swift:237-258 | the text is never changed; read-only is a no-op; success leaves nothing unsaved and dismisses; failure keeps the changes and raises "Failed to save file"; a writable file is no longer saving in both cases, so after a failure the Save button is enabled iff changes remain |
| Editor.CancelGuardsChanges | SEPwn/Sources/FileEditorView.swift:260-266 | cancel dismisses at once iff nothing is unsaved, otherwise asks; Discard then dismisses and the dialog is gone; also the change test at FileEditorView.swift:69-72 |
| Editor.FailedSaveHidesEditor | SEPwn/Sources/FileEditorView.swift:251-254 | after a failed save the error view is shown, and its retry reloads over the unsaved text; also the body at FileEditorView.swift:38-44 and the retry at :111-113 |
| Editor.FileEditor.constructor | SEPwn/Sources/FileEditorView.swift:16-25 | the initial empty, loading, writable state |
| Editor.FileEditor.LoadFile | SEPwn/Sources/FileEditorView.swift:198-235 | agrees with `Loaded` on the backend's answers for the file |
| Editor.FileEditor.SaveFile | SEPwn/Sources/FileEditorView.swift:237-258 | agrees with `Saved`; the navigator refreshes iff a writable file was written |
| Editor.FileEditor.HandleCancel | SEPwn/Sources/FileEditorView.swift:260-266 | agrees with `Cancelled` |
| Editor.FileEditor.ConfirmDiscard | SEPwn/Sources/FileEditorView.swift:70-72 | agrees with `Discarded`: the dialog closes and the editor is dismissed |
| Editor.HexDigit | SEPwn/Sources/FileEditorView.swift:335 | an upper-case hex digit |
| Editor.HexDigitValue | SEPwn/Sources/FileEditorView.swift:335 | reads a digit back: HexDigit(HexDigitValue(c)) == c |
| Editor.HexNumeral | SEPwn/Sources/FileEditorView.swift:296 | a non-empty string of hex digits |
| Editor.HexNumeralValue | SEPwn/Sources/FileEditorView.swift:296 | the numeral reads back as the number |
| Editor.ZerosValue | SEPwn/Sources/FileEditorView.swift:296 | leading zeros do not change the value |
| Editor.HexNumeralLength | SEPwn/Sources/FileEditorView.swift:296 | a number below 16^k needs at most k digits |
| Editor.PaddedHex | SEPwn/Sources/FileEditorView.swift:296 | at least the width, all hex digits |
| Editor.OffsetLabelReadsBack | SEPwn/Sources/FileEditorView.swift:296 | the "%08X" column reads back as the offset and has exactly eight digits below 16^8 |
| Editor.HexByte | SEPwn/Sources/FileEditorView.swift:335 | "%02X": exactly two hex digits |
| Editor.AsciiChar | SEPwn/Sources/FileEditorView.swift:336-342 | printable; the byte itself for 32..126, "." otherwise |
| Editor.AsciiField | SEPwn/Sources/FileEditorView.swift:336-342 | one character per byte |
| Editor.DecodePairsOfBytes | SEPwn/Sources/FileEditorView.swift:335 | the pairs of a row decode back to its bytes |
| Editor.HexFieldRoundTrip | SEPwn/Sources/FileEditorView.swift:335 | the hex column, split at its single spaces, decodes back to the row's bytes |
| Editor.EncodeRows | SEPwn/Sources/FileEditorView.swift:328-345 | one row per started 16 bytes of the first min(n, 4096); row r starts at 16r and holds that row's hex and ASCII columns |
| Editor.RowsBytesPrefix | SEPwn/Sources/FileEditorView.swift:331-333 | the first k rows hold the first 16k bytes (all of them near the end) |
| Editor.RowsCoverShownBytes | SEPwn/Sources/FileEditorView.swift:331-333 | the rows show exactly the first min(n, 4096) bytes, in order; each row holds 1 to 16 of them |
| Editor.HexViewer.constructor | SEPwn/Sources/FileEditorView.swift:278-282 | no rows, loading, no error |
| Editor.HexViewer.LoadHexData | SEPwn/Sources/FileEditorView.swift:318-353 | "Failed to read file" when the read fails, otherwise the encoded rows; never loading afterwards |
| Paths.Components | SEPwn/Sources/FileSystemManager.swift:278 | split(separator: "/"): non-empty segments without separators |
| Paths.Rooted | SEPwn/Sources/FileSystemManager.swift:290 | "/" + joined(separator: "/") is absolute |
| Paths.RootedComponents | SEPwn/Sources/FileSystemManager.swift:288-290 | a rooted join of segments splits back into them and is canonical |
| Paths.CanonicalRoundTrip | SEPwn/Sources/FileSystemManager.swift:288-290 | a canonical path is the rooted join of its own segments |
| Paths.ComponentsConcat | SEPwn/Sources/ShellManager.swift:231 | gluing two paths with "/" puts their segments one after the other |
| Paths.DropLastComponent | SEPwn/Sources/ShellManager.swift:224-229 | the ".." target is absolute |
| Paths.DropLastComponents | SEPwn/Sources/ShellManager.swift:224-229 | it has one segment fewer and is canonical |
| Paths.ParentPath | SEPwn/Sources/FileSystemManager.swift:177 | deletingLastPathComponent of an absolute path is that parent; also FileSystemManager.swift:94 |
| Paths.AppendPathComponent | SEPwn/Sources/FileSystemManager.swift:178 | appendingPathComponent ends in the appended name |
| Paths.PathExtension | SEPwn/Sources/FileManagerView.swift:585 | pathExtension contains no "." and no "/"; a last segment whose only "." leads it has none (see `FileBrowser.DotFileIsPlain`) |
| Strings.NatToString | SEPwn/Sources/JailbreakManager.swift:80-82 | integer interpolation gives a non-empty numeral, with a leading zero only for 0 |
| Strings.IntToString | SEPwn/Sources/FileManagerView.swift:570 | "\(size)" is never empty and starts with "-" iff the value is negative |
| Strings.ParseNatToString | SEPwn/Sources/ShellManager.swift:212 | the numeral reads back as the number |
| Strings.NatToStringInjective | SEPwn/Sources/ShellManager.swift:212 | different numbers give different numerals |
| Strings.Split | SEPwn/Sources/ShellManager.swift:157 | components(separatedBy:): at least one piece, none containing the separator |
| Strings.JoinSplit | SEPwn/Sources/ShellManager.swift:157 | joining the pieces gives the text back |
| Strings.SplitJoin | SEPwn/Sources/FileEditorView.swift:335 | splitting a join of separator-free pieces gives the pieces back |
| Strings.NonEmptyMembers | SEPwn/Sources/FileManagerView.swift:730 | filter { !$0.isEmpty } keeps exactly the non-empty pieces |
| Strings.TrimIsSlice | SEPwn/Sources/ShellManager.swift:98 | trimming cuts only whitespace from both ends |
| Strings.TrimEmpty | SEPwn/Sources/ShellManager.swift:98-100 | the trimmed text is empty iff every character is whitespace |
| Strings.ContainsChar | SEPwn/Sources/FileEditorView.swift:217 | contains of a one-character string is membership |
| Strings.Lower | SEPwn/Sources/ShellManager.swift:119 | lower-casing keeps the length, leaves no upper-case ASCII letter, maps each such letter to its lower-case form and keeps every other character |

## Left out

- ExploitBridge is not part of this model. Each call is an oracle parameter: the stages' actions (as `StageReport`s), isExploitActive, executeShellCommand, isDirectory, listDirectory, moveItem, getFileInfo, readFile, writeFile and readFileData.
- The bodies of the ten stage actions (JailbreakManager.swift:178-460) are left out. They are represented only by their verdict, message and the log lines they write. Kernel base and slide are not modelled.
- The C sources and headers (kernel read/write, info leaks, PAC, fuzzer, offsets) are not part of this model.
- Concurrency is left out: `Task`, `DispatchQueue`, `@MainActor`, `[weak self]` and the 3-second sleep before the respring. Each background step is read as "the backend answers, then the continuation runs", and the respring as one hook after completion.
- Floating point is left out: `progress` is counted in hundredths and `withAnimation` is dropped. The KB/MB/GB branches of `sizeString` and `ByteCountFormatter` are not modelled, because they need `%.1f`.
- Timestamps, UUID identities and `modificationDate` are dropped from `LogEntry`, `TerminalLine` and `FileItem`. `size` is an unbounded integer instead of `Int64`.
- JailbreakManager's `showPasswordPrompt` flag and the stage actions' kernel-info and `uname` logging are not modelled; nothing in the core reads them.
- Swift's `String` counts and compares grapheme clusters, while the model's `string` is a sequence of code points. So `count` (as in `Navigation.Normalize`'s `count > 1`), `isEmpty` and `lowercased()` agree with Swift only on text without combining sequences, which covers the ASCII commands and paths in the core.
- Strings.Lower: `lowercased()` is modelled for ASCII letters only, because the commands it compares against are ASCII and the full Unicode case tables are outside the core.
- Strings.Trim: trimming uses the usual Unicode whitespace and newline characters, listed in `IsWhitespace`, as a stand-in for Foundation's character set.
- PathExtension: models `pathExtension`'s last-dot and leading-dot rules only; any further checks Foundation applies to the extension's characters are not modelled.
- Paths.ParentPath and Paths.AppendPathComponent model `NSString`'s path helpers under the simple rules stated on them, not Foundation's full behaviour (e.g. its standardisation of "..").
- The other wrappers of FileSystemManager.swift are not modelled. Each forwards one backend call:
  - `createFile` (both forms), `createDirectory` (both forms), `deleteItem`, `moveItem`, `copyItem`, `chmod`, `chown` and `setPermissions` return the backend's verdict and call `refresh()` when it succeeds (lines 128-243);
  - `readFile`, `writeFile`, `searchFiles`, the second `search` and `getFileInfo` only return the backend's answer and never refresh (lines 205-254).
- `defaultBookmarks` (FileSystemManager.swift:23) is static data and calls nothing; it is not modelled.
- The older manager's `createDirectory`, `createFile`, `deleteItem`, `moveItem`, `copyItem`, `setPermissions`, `readFile` and `writeFile` (FileManagerView.swift:694-724) are not modelled; each only returns the backend's answer and none refreshes.
- The second `FileEditorView` inside FileManagerView.swift (lines 736-819) is not modelled. The model covers FileEditorView.swift's editor, whose logic it duplicates in simpler form.
- The editor's `fileName`, `formatSize` and the alert's "Unknown error" fallback are presentation and are not modelled.
- `Editor.FileInfo` keeps only `permissions`, the one field the editor reads.
- SwiftUI layout, sheets, alerts, the pasteboard, `QuickCommandsView` and previews are not modelled.
- Editor.OffsetLabel: `%08X` is modelled as zero-padding to at least eight digits of the unbounded offset. The source's offsets are below 4096, so this choice does not matter.
