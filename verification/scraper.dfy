/**
 The acquisition status machine of `Scraper` and its close guard.

 Every handler is a pure step on a `Session` record. The external acquisition
 runner is reduced to the calls the handlers make on it (`Call`); settle
 delays are no-ops; spinner, overlay and dialogs are UI, except that the
 overlay only exists once the start flow has built it, and a handler that
 touches it earlier raises `AttributeError`. Such an exception ends the
 handler: assignments made before it stay, the rest of the handler does not
 run (`raised`).
 */
module Scraper {
  import opened Maybe
  import opened FileSystem

  datatype Status = Unstarted | Started | Stopped | Finished

  /** The calls made on the external acquisition runner and the finish hand-off, in program order. */
  datatype Call =
    | LoadTasks
    | LogStartMessage
    | RunStartTasks
    | LogStopMessage
    | RunStopTasks
    | StartPostAcquisition
    | LogEndMessage
    | SetCompletedProgressBar
    | UnloadTasks
    | ShowFinishDialog(dir: Option<Path>)

  datatype Session = Session(
    status: Status,
    acquisitionDirectory: Option<Path>,
    overlayBuilt: bool,        // the spinner and tasks overlay the start flow builds
    indicatorsVisible: bool,   // progress and status bars of the runner
    postStarted: bool,         // post-acquisition has been launched
    fromWizard: bool)          // opened from a wizard rather than standalone

  /** The session after one handler, the runner calls it made, and whether it ended in an exception. */
  datatype Step = Step(session: Session, calls: seq<Call>, raised: bool)

  /** Closing is allowed before the acquisition starts and after it has finished. */
  predicate CanClose(status: Status) {
    status == Unstarted || status == Finished
  }

  /** Position in the intended order UNSTARTED, STARTED, STOPPED, FINISHED. */
  function Rank(status: Status): nat {
    match status
    case Unstarted => 0
    case Started => 1
    case Stopped => 2
    case Finished => 3
  }

  function Initial(fromWizard: bool): (s: Session)
    ensures s.status == Unstarted && CanClose(s.status)
    ensures s.acquisitionDirectory.None? && !s.postStarted
  {
    Session(Unstarted, None, false, false, false, fromWizard)
  }

  /**
   `execute_start_tasks_flow`: STARTED whatever the status was, overlay built,
   indicators shown, tasks loaded, then the start tasks launched.
   */
  function ExecuteStartTasksFlow(s: Session): (r: Step)
    ensures r.session.status == Started
    ensures r.session.acquisitionDirectory == s.acquisitionDirectory
    ensures r.session.overlayBuilt && r.session.indicatorsVisible && !r.raised
    ensures r.calls == [LoadTasks, LogStartMessage, RunStartTasks]
  {
    var s' := s.(status := Started, indicatorsVisible := true, overlayBuilt := true);
    Step(s', [LoadTasks, LogStartMessage, RunStartTasks], false)
  }

  /** `on_start_tasks_finished`: hides the indicators; the status stays what it was. */
  function OnStartTasksFinished(s: Session): (r: Step)
    ensures r.session.status == s.status && r.calls == []
    ensures r.raised <==> !s.overlayBuilt
    ensures !r.raised ==> !r.session.indicatorsVisible
    ensures r.raised ==> r.session == s
  {
    if !s.overlayBuilt then Step(s, [], true)  // the spinner does not exist yet
    else Step(s.(indicatorsVisible := false), [], false)
  }

  /**
   `execute_stop_tasks_flow`: STOPPED whatever the status was. Before the start
   flow has built the overlay, showing it raises and the stop tasks never run.
   */
  function ExecuteStopTasksFlow(s: Session): (r: Step)
    ensures r.session.status == Stopped
    ensures r.session.acquisitionDirectory == s.acquisitionDirectory
    ensures r.raised <==> !s.overlayBuilt
    ensures RunStopTasks in r.calls <==> s.overlayBuilt
  {
    var s' := s.(status := Stopped, indicatorsVisible := true);
    if !s.overlayBuilt then Step(s', [], true)
    else Step(s', [LogStopMessage, RunStopTasks], false)
  }

  /** `execute_post_acquisition_tasks_flow`. */
  function ExecutePostAcquisitionTasksFlow(s: Session): (r: Step)
    ensures r.session.postStarted && r.session.status == s.status
    ensures r.calls == [StartPostAcquisition] && !r.raised
  {
    Step(s.(postStarted := true), [StartPostAcquisition], false)
  }

  /** `on_stop_tasks_finished` of the base class: indicators back on, then post-acquisition. */
  function OnStopTasksFinished(s: Session): (r: Step)
    ensures r.session.status == s.status && r.session.postStarted
    ensures r.session.indicatorsVisible
    ensures StartPostAcquisition in r.calls && !r.raised
  {
    ExecutePostAcquisitionTasksFlow(s.(indicatorsVisible := true))
  }

  /**
   `on_post_acquisition_finished`: FINISHED whatever the status was; with the
   overlay in place it then logs, completes and unloads, and hands the
   acquisition directory to the finish dialog.
   */
  function OnPostAcquisitionFinished(s: Session): (r: Step)
    ensures r.session.status == Finished && CanClose(r.session.status)
    ensures r.raised <==> !s.overlayBuilt
    ensures ShowFinishDialog(s.acquisitionDirectory) in r.calls <==> s.overlayBuilt
    ensures !r.raised ==> !r.session.indicatorsVisible && UnloadTasks in r.calls
  {
    var s' := s.(status := Finished);
    if !s.overlayBuilt then Step(s', [], true)  // closing the tasks overlay fails on None
    else
      Step(s'.(indicatorsVisible := false),
           [LogEndMessage, SetCompletedProgressBar, UnloadTasks, ShowFinishDialog(s.acquisitionDirectory)],
           false)
  }

  /**
   Triggers are not checked against the current status: starting again after
   the acquisition has finished moves the status back to STARTED.
   */
  lemma RestartAfterFinish(s: Session)
    requires s.status == Finished
    ensures ExecuteStartTasksFlow(s).session.status == Started
    ensures Rank(ExecuteStartTasksFlow(s).session.status) < Rank(s.status)
  {
  }

  /** Nor is stop guarded: pressing it after the acquisition has finished runs the stop tasks again. */
  lemma StopAfterFinish(s: Session)
    requires s.status == Finished && s.overlayBuilt
    ensures ExecuteStopTasksFlow(s).session.status == Stopped
    ensures !CanClose(ExecuteStopTasksFlow(s).session.status)
    ensures RunStopTasks in ExecuteStopTasksFlow(s).calls
  {
  }

  /** What `closeEvent` does with the event, and whether control went back to the wizard. */
  datatype CloseDecision = CloseDecision(accepted: bool, backToWizard: bool, warned: bool)

  /**
   `closeEvent`: from a wizard the event is always ignored and control returns
   to the wizard when closing is allowed (`__back_to_wizard`); standalone, the
   event is accepted exactly when closing is allowed. Refusal shows a warning.
   */
  function CloseEvent(s: Session): (d: CloseDecision)
    ensures s.fromWizard ==> !d.accepted
    ensures s.fromWizard ==> (d.backToWizard <==> CanClose(s.status))
    ensures !s.fromWizard ==> !d.backToWizard && (d.accepted <==> CanClose(s.status))
    ensures d.warned <==> !CanClose(s.status)
  {
    var allowed := CanClose(s.status);
    if s.fromWizard then CloseDecision(false, allowed, !allowed)
    else CloseDecision(allowed, false, !allowed)
  }

  /** A running acquisition is never left: neither by closing nor by returning to the wizard. */
  lemma CloseKeepsRunningAcquisition(s: Session)
    requires s.status == Started || s.status == Stopped
    ensures !CloseEvent(s).accepted && !CloseEvent(s).backToWizard && CloseEvent(s).warned
  {
  }
}
