/** The rules of the main screen (ContentView.swift) that decide what a tap does:
    the run button is disabled while a run is in progress, and the Clear button
    only clears the log. */
module Content {
  import opened Palette
  import opened Pipeline

  /** .disabled(jailbreakManager.isRunning) */
  function RunButtonDisabled(isRunning: bool): (disabled: bool)
    ensures disabled <==> isRunning
  {
    isRunning
  }

  /** The run button is gray while it is disabled and blue otherwise. */
  function RunButtonBackground(isRunning: bool): (c: Color)
    ensures c == Gray <==> RunButtonDisabled(isRunning)
    ensures c == Blue <==> !RunButtonDisabled(isRunning)
  {
    if isRunning then Gray else Blue
  }

  /** The status message is shown only when there is one. */
  function ShowsStatusMessage(statusMessage: string): (shown: bool)
    ensures shown <==> |statusMessage| > 0
  {
    statusMessage != ""
  }

  /** A tap on the run button: nothing happens while it is disabled, otherwise a
      run starts. Either way no run is left in progress afterwards, because the
      call returns only when the run has ended. A completed run always leaves a
      status message on screen; a failed one shows the failing stage's message,
      which is hidden when the backend gave an empty one. */
  method TapRun(jm: JailbreakManager, reports: seq<StageReport>) returns (started: bool)
    requires |reports| == |jm.stages|
    modifies jm
    ensures started <==> !old(jm.isRunning)
    ensures !started ==> unchanged(jm)
    ensures started ==> !jm.isRunning && (jm.isComplete <==> FirstFailure(reports).None?)
    ensures started && jm.isComplete ==> ShowsStatusMessage(jm.statusMessage)
    ensures started && FirstFailure(reports).Some? ==>
      (ShowsStatusMessage(jm.statusMessage) <==> reports[FirstFailure(reports).value].message != "")
  {
    started := !RunButtonDisabled(jm.isRunning);
    if started {
      var executed, published := jm.StartJailbreak(reports);
    }
  }

  /** A tap on Clear: the log is emptied and nothing else changes. */
  method TapClear(jm: JailbreakManager)
    modifies jm`logs
    ensures jm.logs == []
  {
    jm.ClearLogs();
  }
}
