/** The staged jailbreak pipeline of JailbreakManager.swift: ten named, weighted
    stages run strictly in order, progress accumulates stage by stage, every step
    is logged, the run stops at the first failing stage, and a call made while a
    run is in progress is ignored.

    The privileged backend is an oracle: for stage i it answers with a
    StageReport, which carries the stage's verdict, its message and the log lines
    the stage's own action wrote while it ran. Progress is counted in hundredths. */
module Pipeline {
  import opened Strings
  import opened LogModel
  import opened Palette

  /** One row of the stage table; the weight is in hundredths of the bar. */
  datatype Stage = Stage(name: string, weight: nat)

  const Stages: seq<Stage> := [
    Stage("Initializing", 5),
    Stage("Checking Device", 5),
    Stage("Finding Kernel Base", 10),
    Stage("Leaking Kernel Info", 10),
    Stage("Establishing Kernel R/W", 15),
    Stage("Bypassing PAC", 10),
    Stage("Escalating Privileges", 10),
    Stage("Patching Kernel", 10),
    Stage("Installing Package Managers", 15),
    Stage("Finalizing", 10)
  ]

  /** What running one stage's action produced. */
  datatype StageReport = StageReport(success: bool, message: string, notes: seq<LogEntry>)

  /** The progress after the first k rows of a table: the sum of their weights. */
  function WeightSum(table: seq<Stage>, k: nat): nat
    requires k <= |table|
  {
    if k == 0 then 0 else WeightSum(table, k - 1) + table[k - 1].weight
  }

  /** The weights of the table add up to the whole bar. */
  lemma WeightsFillTheBar()
    ensures |Stages| == 10 && WeightSum(Stages, |Stages|) == 100
  {
  }

  /** Progress never goes backwards as more stages complete. */
  lemma {:induction false} WeightSumMonotone(table: seq<Stage>, i: nat, j: nat)
    requires i <= j <= |table|
    ensures WeightSum(table, i) <= WeightSum(table, j)
    decreases j
  {
    if i < j {
      WeightSumMonotone(table, i, j - 1);
    }
  }

  /** Every partial sum stays within the bar. */
  lemma ProgressWithinBar(k: nat)
    requires k <= |Stages|
    ensures WeightSum(Stages, k) <= 100
  {
    WeightsFillTheBar();
    WeightSumMonotone(Stages, k, |Stages|);
  }

  /** The progress values published after each of the first k stages. */
  function Milestones(table: seq<Stage>, k: nat): (m: seq<nat>)
    requires k <= |table|
    ensures |m| == k && forall j :: 0 <= j < k ==> m[j] == WeightSum(table, j + 1)
  {
    seq(k, j requires 0 <= j < k => WeightSum(table, j + 1))
  }

  lemma MilestonesExtend(table: seq<Stage>, k: nat)
    requires k < |table|
    ensures Milestones(table, k + 1) == Milestones(table, k) + [WeightSum(table, k + 1)]
  {
  }

  /** The published values never go down, the last one is the progress reached,
      and a run of the whole stage table ends its published values at a full bar. */
  lemma MilestonesRise(table: seq<Stage>, k: nat)
    requires k <= |table|
    ensures forall i, j :: 0 <= i <= j < k ==> Milestones(table, k)[i] <= Milestones(table, k)[j]
    ensures k > 0 ==> Milestones(table, k)[k - 1] == WeightSum(table, k)
    ensures table == Stages && k == |table| ==> Milestones(table, k)[k - 1] == 100
  {
    forall i, j | 0 <= i <= j < k
      ensures Milestones(table, k)[i] <= Milestones(table, k)[j]
    {
      WeightSumMonotone(table, i + 1, j + 1);
    }
    if table == Stages {
      WeightsFillTheBar();
    }
  }

  function Iota(n: nat): (r: seq<nat>)
    ensures |r| == n && forall j :: 0 <= j < n ==> r[j] == j
  {
    if n == 0 then [] else Iota(n - 1) + [n - 1]
  }

  /** executeStage's dispatch: an index with a case selects that action's backend
      report; any other index yields success with message "OK". reports holds one
      report per case of the dispatch, and there is one case per row of the
      stage table. */
  function StageResult(index: int, reports: seq<StageReport>): (r: StageReport)
    ensures 0 <= index < |reports| ==> r == reports[index]
    ensures !(0 <= index < |reports|) ==> r == StageReport(true, "OK", [])
  {
    if 0 <= index < |reports| then reports[index] else StageReport(true, "OK", [])
  }

  /** The stage actions executeStage's switch calls, in the order of its cases. */
  datatype StageAction = InitializeExploit | CheckDevice | FindKernelBase | LeakKernelInfo
    | EstablishKernelRW | BypassPAC | EscalatePrivileges | PatchKernel
    | InstallPackageManagers | Finalize

  /** executeStage's switch: cases 0 to 9 call their action, any other index takes
      the default arm. */
  function Dispatch(index: int): (a: Option<StageAction>)
    ensures a.Some? <==> 0 <= index < 10
  {
    if index == 0 then Some(InitializeExploit)
    else if index == 1 then Some(CheckDevice)
    else if index == 2 then Some(FindKernelBase)
    else if index == 3 then Some(LeakKernelInfo)
    else if index == 4 then Some(EstablishKernelRW)
    else if index == 5 then Some(BypassPAC)
    else if index == 6 then Some(EscalatePrivileges)
    else if index == 7 then Some(PatchKernel)
    else if index == 8 then Some(InstallPackageManagers)
    else if index == 9 then Some(Finalize)
    else None
  }

  /** The stage each action carries out, as the comments of the switch name it. */
  function ActionStage(a: StageAction): string {
    match a
    case InitializeExploit => "Initializing"
    case CheckDevice => "Checking Device"
    case FindKernelBase => "Finding Kernel Base"
    case LeakKernelInfo => "Leaking Kernel Info"
    case EstablishKernelRW => "Establishing Kernel R/W"
    case BypassPAC => "Bypassing PAC"
    case EscalatePrivileges => "Escalating Privileges"
    case PatchKernel => "Patching Kernel"
    case InstallPackageManagers => "Installing Package Managers"
    case Finalize => "Finalizing"
  }

  /** No two cases of the switch call the same action. */
  lemma DispatchDistinct(i: int, j: int)
    requires Dispatch(i).Some? && Dispatch(i) == Dispatch(j)
    ensures i == j
  {
  }

  /** Case i of the switch carries out row i of the stage table, so every row
      has its own action and every action its own row. */
  lemma DispatchFollowsTable(i: nat)
    requires i < |Stages|
    ensures Dispatch(i).Some? && ActionStage(Dispatch(i).value) == Stages[i].name
  {
  }

  /** With one report per row of the stage table, a stage index gets the report of
      the action its case calls, and an index with no case succeeds with "OK" and
      writes nothing. */
  lemma StageResultFollowsDispatch(index: int, reports: seq<StageReport>)
    requires |reports| == |Stages|
    ensures Dispatch(index).Some? ==> StageResult(index, reports) == reports[index]
    ensures Dispatch(index).None? ==> StageResult(index, reports) == StageReport(true, "OK", [])
  {
  }

  /** The index of the first failing report, if any. */
  function FirstFailure(reports: seq<StageReport>): (k: Option<nat>)
    ensures k.Some? ==> k.value < |reports| && !reports[k.value].success
    ensures k.Some? ==> forall j :: 0 <= j < k.value ==> reports[j].success
    ensures k.None? <==> forall j :: 0 <= j < |reports| ==> reports[j].success
    decreases |reports|
  {
    if reports == [] then None
    else if !reports[0].success then Some(0)
    else match FirstFailure(reports[1..])
      case None => None
      case Some(k) => Some(k + 1)
  }

  /** The first n reports all succeed. */
  predicate SucceededBefore(reports: seq<StageReport>, n: nat)
    requires n <= |reports|
  {
    forall j :: 0 <= j < n ==> reports[j].success
  }

  lemma SucceededExtend(reports: seq<StageReport>, n: nat)
    requires n < |reports| && SucceededBefore(reports, n) && reports[n].success
    ensures SucceededBefore(reports, n + 1)
  {
  }

  /** The failing stage a run stops at is the first one whose report fails. */
  lemma FirstFailureAt(reports: seq<StageReport>, k: nat)
    requires k < |reports| && !reports[k].success && SucceededBefore(reports, k)
    ensures FirstFailure(reports) == Some(k)
  {
  }

  // ---------------------------------------------------------------------------
  // The log lines of a run

  const IntroLogs: seq<LogEntry> := [
    LogEntry(Info, "Starting SEPwn iOS 26.1 Jailbreak"),
    LogEntry(Info, "Target: iPhone Air (iPhone18,4)"),
    LogEntry(Info, "Build: 23B85"),
    LogEntry(Info, "Mode: REAL EXPLOIT - No Simulation")
  ]

  const CompletionLogs: seq<LogEntry> := [
    LogEntry(Success, "\U{1F389} Jailbreak complete!"),
    LogEntry(Success, "Root access obtained"),
    LogEntry(Success, "Sandbox escaped"),
    LogEntry(Success, "Sileo & Zebra installed"),
    LogEntry(Info, "Respring in 3 seconds...")
  ]

  const RespringLogs: seq<LogEntry> := [
    LogEntry(Info, "Triggering respring..."),
    LogEntry(Success, "Respring initiated")
  ]

  /** "[i+1/n] name..." for row i of a table of n rows. */
  function EnteringMessage(table: seq<Stage>, i: nat): string
    requires i < |table|
  {
    "[" + NatToString(i + 1) + CountAndName(table, i)
  }

  /** "/n] name...", the part of an announcement after the stage number. */
  function CountAndName(table: seq<Stage>, i: nat): (t: string)
    requires i < |table|
    ensures |t| >= 1 && t[0] == '/'
  {
    "/" + NatToString(|table|) + "] " + table[i].name + "..."
  }

  function StatusLine(table: seq<Stage>, i: nat): string
    requires i < |table|
  {
    "Stage " + NatToString(i + 1) + " of " + NatToString(|table|)
  }

  function OutcomeLog(table: seq<Stage>, i: nat, r: StageReport): LogEntry
    requires i < |table|
  {
    if r.success then LogEntry(Success, table[i].name + ": " + r.message)
    else LogEntry(Error, table[i].name + " failed: " + r.message)
  }

  /** The log lines of stage i: its announcement, what its action wrote, its
      outcome. */
  function StageLog(table: seq<Stage>, i: nat, r: StageReport): seq<LogEntry>
    requires i < |table|
  {
    [LogEntry(Info, EnteringMessage(table, i))] + r.notes + [OutcomeLog(table, i, r)]
  }

  /** The log lines of the first k stages, in table order. */
  function StageLogs(table: seq<Stage>, reports: seq<StageReport>, k: nat): seq<LogEntry>
    requires k <= |reports| == |table|
  {
    if k == 0 then [] else StageLogs(table, reports, k - 1) + StageLog(table, k - 1, reports[k - 1])
  }

  /** Two numerals followed by the same non-digit are equal when the texts are. */
  lemma NumeralPrefix(a: string, b: string, x: string, y: string)
    requires AllDigits(a) && AllDigits(b) && |x| >= 1 && |y| >= 1
    requires !('0' <= x[0] <= '9') && !('0' <= y[0] <= '9')
    requires a + x == b + y
    ensures a == b
  {
    var m := if |a| < |b| then |a| else |b|;
    assert (a + x)[m] == (b + y)[m];
    assert |a| == |b|;
    assert a == (a + x)[..|a|] && b == (b + y)[..|b|];
  }

  /** "[m" and "[n" followed by a "/" agree only when m and n do. */
  lemma BracketedNumeral(m: nat, n: nat, x: string, y: string)
    requires |x| >= 1 && |y| >= 1 && x[0] == '/' && y[0] == '/'
    requires "[" + NatToString(m) + x == "[" + NatToString(n) + y
    ensures m == n
  {
    var a, b := NatToString(m), NatToString(n);
    assert ("[" + a + x)[1..] == a + x;
    assert ("[" + b + y)[1..] == b + y;
    NumeralPrefix(a, b, x, y);
    NatToStringInjective(m, n);
  }

  /** Each stage is announced with its own number: no two announcements agree. */
  lemma EnteringMessagesDistinct(table: seq<Stage>, i: nat, j: nat)
    requires i < |table| && j < |table| && i != j
    ensures EnteringMessage(table, i) != EnteringMessage(table, j)
  {
    if EnteringMessage(table, i) == EnteringMessage(table, j) {
      BracketedNumeral(i + 1, j + 1, CountAndName(table, i), CountAndName(table, j));
    }
  }

  // ---------------------------------------------------------------------------
  // Computed properties

  /** statusColor: complete wins over running, running over idle. */
  function StatusColor(isComplete: bool, isRunning: bool): (c: Color)
    ensures c == Green <==> isComplete
    ensures c == Orange <==> !isComplete && isRunning
    ensures c == Blue <==> !isComplete && !isRunning
  {
    if isComplete then Green else if isRunning then Orange else Blue
  }

  /** buttonTitle, with the same precedence as statusColor. */
  function ButtonTitle(isComplete: bool, isRunning: bool): (t: string)
    ensures t == "Jailbroken \U{2713}" <==> isComplete
    ensures t == "Running..." <==> !isComplete && isRunning
    ensures t == "Jailbreak" <==> !isComplete && !isRunning
  {
    if isComplete then "Jailbroken \U{2713}" else if isRunning then "Running..." else "Jailbreak"
  }

  // ---------------------------------------------------------------------------
  // The manager

  class JailbreakManager {
    var currentStage: string
    var statusMessage: string
    var progress: nat
    var isRunning: bool
    var isComplete: bool
    var logs: seq<LogEntry>
    var rootPassword: string
    /** How many times the backend was asked to respring. */
    var resprings: nat
    /** The stage table the manager runs. */
    const stages: seq<Stage>

    constructor ()
      ensures stages == Stages
      ensures currentStage == "Ready" && statusMessage == "Tap Jailbreak to begin"
      ensures progress == 0 && !isRunning && !isComplete && logs == []
      ensures rootPassword == "" && resprings == 0
    {
      currentStage := "Ready";
      statusMessage := "Tap Jailbreak to begin";
      progress := 0;
      isRunning := false;
      isComplete := false;
      logs := [];
      rootPassword := "";
      resprings := 0;
      stages := Stages;
    }

    /** Appends exactly one entry and touches nothing else. */
    method Log(message: string, level: LogLevel)
      modifies this`logs
      ensures logs == old(logs) + [LogEntry(level, message)]
    {
      logs := logs + [LogEntry(level, message)];
    }

    method ClearLogs()
      modifies this`logs
      ensures logs == []
    {
      logs := [];
    }

    /** Runs the action of stage index: its log lines are appended and its verdict
        returned. */
    method ExecuteStage(index: int, reports: seq<StageReport>) returns (success: bool, message: string)
      modifies this`logs
      ensures success == StageResult(index, reports).success
      ensures message == StageResult(index, reports).message
      ensures logs == old(logs) + StageResult(index, reports).notes
    {
      var r := StageResult(index, reports);
      logs := logs + r.notes;
      success, message := r.success, r.message;
    }

    /** The post-completion hook: asks the backend to respring, with two log lines. */
    method PerformRespring()
      modifies this`logs, this`resprings
      ensures logs == old(logs) + RespringLogs
      ensures resprings == old(resprings) + 1
    {
      Log("Triggering respring...", Info);
      resprings := resprings + 1;
      Log("Respring initiated", Success);
    }

    /** The four lines that open a run. */
    method AnnounceRun()
      modifies this`logs
      ensures logs == old(logs) + IntroLogs
    {
      Log("Starting SEPwn iOS 26.1 Jailbreak", Info);
      Log("Target: iPhone Air (iPhone18,4)", Info);
      Log("Build: 23B85", Info);
      Log("Mode: REAL EXPLOIT - No Simulation", Info);
    }

    /** One pass of startJailbreak's loop up to its verdict: the stage becomes
        current, it is announced, its action runs and its outcome is logged. */
    method RunStage(index: nat, reports: seq<StageReport>) returns (success: bool, message: string)
      requires index < |stages| == |reports|
      modifies this`currentStage, this`statusMessage, this`logs
      ensures success == reports[index].success && message == reports[index].message
      ensures currentStage == stages[index].name && statusMessage == StatusLine(stages, index)
      ensures logs == old(logs) + StageLog(stages, index, reports[index])
    {
      var stage := stages[index];
      currentStage := stage.name;
      statusMessage := StatusLine(stages, index);
      Log(EnteringMessage(stages, index), Info);

      success, message := ExecuteStage(index, reports);

      if success {
        Log(stage.name + ": " + message, Success);
      } else {
        Log(stage.name + " failed: " + message, Error);
      }
    }

    /** The lines logged once every stage has succeeded. */
    method AnnounceCompletion()
      modifies this`logs
      ensures logs == old(logs) + CompletionLogs
    {
      Log("\U{1F389} Jailbreak complete!", Success);
      Log("Root access obtained", Success);
      Log("Sandbox escaped", Success);
      Log("Sileo & Zebra installed", Success);
      Log("Respring in 3 seconds...", Info);
    }

    /** startJailbreak's loop: the stages in table order until one fails. failed is
        the failing stage, if any, and message its message. */
    method RunStages(reports: seq<StageReport>)
      returns (failed: Option<nat>, message: string, executed: seq<nat>, published: seq<nat>)
      requires |reports| == |stages| && progress == 0
      modifies this`currentStage, this`statusMessage, this`logs, this`progress
      ensures failed == FirstFailure(reports)
      ensures failed.Some? ==> message == reports[failed.value].message
      ensures failed.Some? ==> executed == Iota(failed.value + 1)
      ensures failed.Some? ==>
        published == Milestones(stages, failed.value) && progress == WeightSum(stages, failed.value)
      ensures failed.Some? ==>
        logs == old(logs) + StageLogs(stages, reports, failed.value) + StageLog(stages, failed.value, reports[failed.value])
      ensures failed.None? ==> executed == Iota(|stages|)
      ensures failed.None? ==>
        published == Milestones(stages, |stages|) && progress == WeightSum(stages, |stages|)
      ensures failed.None? ==> logs == old(logs) + StageLogs(stages, reports, |stages|)
    {
      executed, published := [], [];
      var cumulativeProgress := 0;
      var index := 0;
      while index < |reports|
        invariant 0 <= index <= |reports|
        invariant SucceededBefore(reports, index)
        invariant cumulativeProgress == WeightSum(stages, index) && progress == cumulativeProgress
        invariant executed == Iota(index) && published == Milestones(stages, index)
        invariant logs == old(logs) + StageLogs(stages, reports, index)
      {
        var success;
        success, message := RunStage(index, reports);
        executed := executed + [index];
        if !success {
          FirstFailureAt(reports, index);
          failed := Some(index);
          return;
        }
        SucceededExtend(reports, index);
        cumulativeProgress, published := Advance(index, cumulativeProgress, published);
        index := index + 1;
      }
      failed, message := None, "";
    }

    /** A stage succeeded: its weight is added to the bar and the new value
        published. */
    method Advance(index: nat, cumulative: nat, published: seq<nat>) returns (cumulative': nat, published': seq<nat>)
      requires index < |stages|
      requires cumulative == WeightSum(stages, index) && published == Milestones(stages, index)
      modifies this`progress
      ensures cumulative' == WeightSum(stages, index + 1) && progress == cumulative'
      ensures published' == Milestones(stages, index + 1)
    {
      cumulative' := cumulative + stages[index].weight;
      progress := cumulative';
      published' := published + [progress];
      MilestonesExtend(stages, index);
    }

    /** startJailbreak. executed lists the stage indices whose action ran, in order;
        published lists the progress values set after each successful stage. */
    method StartJailbreak(reports: seq<StageReport>) returns (executed: seq<nat>, published: seq<nat>)
      requires |reports| == |stages|
      modifies this
      ensures old(isRunning) ==> executed == [] && published == [] && unchanged(this)
      ensures !old(isRunning) ==> !isRunning && rootPassword == old(rootPassword)
      ensures !old(isRunning) && FirstFailure(reports).Some? ==>
        var k := FirstFailure(reports).value;
        && executed == Iota(k + 1) && published == Milestones(stages, k)
        && progress == WeightSum(stages, k) && !isComplete
        && currentStage == "Failed" && statusMessage == reports[k].message
        && logs == old(logs) + IntroLogs + StageLogs(stages, reports, k) + StageLog(stages, k, reports[k])
        && resprings == old(resprings)
      ensures !old(isRunning) && FirstFailure(reports).None? ==>
        && executed == Iota(|stages|) && published == Milestones(stages, |stages|)
        && progress == 100 && isComplete
        && currentStage == "Jailbroken" && statusMessage == "Device successfully jailbroken!"
        && logs == old(logs) + IntroLogs + StageLogs(stages, reports, |stages|) + CompletionLogs + RespringLogs
        && resprings == old(resprings) + 1
    {
      if isRunning {
        return [], [];
      }
      executed, published := Run(reports);
    }

    /** startJailbreak past its isRunning guard. */
    method Run(reports: seq<StageReport>) returns (executed: seq<nat>, published: seq<nat>)
      requires |reports| == |stages| && !isRunning
      modifies this`currentStage, this`statusMessage, this`progress, this`isRunning,
        this`isComplete, this`logs, this`resprings
      ensures !isRunning
      ensures FirstFailure(reports).Some? ==> var k := FirstFailure(reports).value;
        executed == Iota(k + 1) && published == Milestones(stages, k)
      ensures FirstFailure(reports).Some? ==> var k := FirstFailure(reports).value;
        progress == WeightSum(stages, k) && !isComplete
      ensures FirstFailure(reports).Some? ==> var k := FirstFailure(reports).value;
        currentStage == "Failed" && statusMessage == reports[k].message
      ensures FirstFailure(reports).Some? ==> var k := FirstFailure(reports).value;
        logs == old(logs) + IntroLogs + StageLogs(stages, reports, k) + StageLog(stages, k, reports[k])
      ensures FirstFailure(reports).Some? ==> resprings == old(resprings)
      ensures FirstFailure(reports).None? ==>
        executed == Iota(|stages|) && published == Milestones(stages, |stages|)
      ensures FirstFailure(reports).None? ==> progress == 100 && isComplete
      ensures FirstFailure(reports).None? ==>
        currentStage == "Jailbroken" && statusMessage == "Device successfully jailbroken!"
      ensures FirstFailure(reports).None? ==>
        logs == old(logs) + IntroLogs + StageLogs(stages, reports, |stages|) + CompletionLogs + RespringLogs
      ensures FirstFailure(reports).None? ==> resprings == old(resprings) + 1
    {
      Begin();
      var failed, message;
      failed, message, executed, published := RunStages(reports);
      if failed.Some? {
        Fail(message);
      } else {
        Complete();
      }
    }

    /** The opening of a run: flags and progress reset, the four intro lines. */
    method Begin()
      modifies this`isRunning, this`isComplete, this`progress, this`logs
      ensures isRunning && !isComplete && progress == 0
      ensures logs == old(logs) + IntroLogs
    {
      isRunning := true;
      isComplete := false;
      progress := 0;
      AnnounceRun();
    }

    /** A run that stopped at a failing stage shows that stage's message. */
    method Fail(message: string)
      modifies this`currentStage, this`statusMessage, this`isRunning
      ensures currentStage == "Failed" && statusMessage == message && !isRunning
    {
      currentStage := "Failed";
      statusMessage := message;
      isRunning := false;
    }

    /** The tail of a run in which every stage succeeded. */
    method Complete()
      modifies this`currentStage, this`statusMessage, this`progress, this`isRunning,
        this`isComplete, this`logs, this`resprings
      ensures progress == 100 && isComplete && !isRunning
      ensures currentStage == "Jailbroken" && statusMessage == "Device successfully jailbroken!"
      ensures logs == old(logs) + CompletionLogs + RespringLogs
      ensures resprings == old(resprings) + 1
    {
      currentStage := "Jailbroken";
      statusMessage := "Device successfully jailbroken!";
      isComplete := true;
      isRunning := false;
      progress := 100;
      AnnounceCompletion();
      PerformRespring();
    }

    /** setRootPassword: records the password and logs the backend's answer. */
    method SetRootPassword(password: string, accepted: bool)
      modifies this`rootPassword, this`logs
      ensures rootPassword == password
      ensures logs == old(logs) + [LogEntry(Info, "Setting root password..."),
        if accepted then LogEntry(Success, "Root password set successfully")
        else LogEntry(Error, "Failed to set root password")]
    {
      rootPassword := password;
      Log("Setting root password...", Info);
      if accepted {
        Log("Root password set successfully", Success);
      } else {
        Log("Failed to set root password", Error);
      }
    }
  }
}
