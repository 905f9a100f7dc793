/**
 `TestScraper`, the concrete web scraper: its task lists, the start flow that
 only reaches the base start transition once the acquisition directory and
 its `screenshot` sub-directory exist, and the stop-finished handler that
 launches post-acquisition directly. Events from the buttons and from the
 runner are dispatched to the handlers by `Handle`.
 */
module TestScraper {
  import opened Maybe
  import opened FileSystem
  import opened Allocator
  import S = Scraper

  datatype Task =
    | ScreenRecorder | PacketCapture
    | Whois | NsLookup | Headers | SslKeyLog | SslCertificate | Traceroute

  const StartTasks: seq<Task> := [ScreenRecorder, PacketCapture]

  const StopTasks: seq<Task> :=
    [Whois, NsLookup, Headers, SslKeyLog, SslCertificate, Traceroute, ScreenRecorder, PacketCapture]

  /**
   Every task the start list launches is also in the stop list, and the stop
   list ends by stopping the recorders in start order.
   */
  lemma TaskListsPairUp()
    ensures forall t | t in StartTasks :: t in StopTasks
    ensures |StopTasks| == 8 && StopTasks[|StopTasks| - |StartTasks|..] == StartTasks
  {
  }

  const ScreenshotFolder: string := "screenshot"
  const PageFolder: string := "acquisition_page"

  /** The options handed to the runner (window handles and position are left out). */
  datatype Options = Options(
    acquisitionDirectory: Path,
    screenshotDirectory: Path,
    url: string,
    kind: string,
    caseInfo: map<string, string>,
    pdfFilename: string)

  /** The configured cases folder, the case record and the acquisition type of this window. */
  datatype Config = Config(casesRoot: Path, caseInfo: map<string, string>, acquisitionType: string)

  datatype App = App(fs: FileSystem, session: S.Session, options: Option<Options>)

  datatype Reaction = Reaction(app: App, calls: seq<S.Call>, raised: bool)

  function OptionsFor(cfg: Config, dir: Path): (o: Options)
    ensures o.acquisitionDirectory == dir && o.screenshotDirectory == dir + [ScreenshotFolder]
  {
    Options(dir, dir + [ScreenshotFolder], "http://google.it", "web", cfg.caseInfo, "acquisition_report.pdf")
  }

  /**
   `TestScraper.execute_start_tasks_flow`: allocate the acquisition directory,
   create `screenshot` in it, create `acquisition_page` in it, record the
   options, then run the base start flow. A failed creation stops the flow
   quietly; a failure of the last one escapes the handler.
   */
  function ExecuteStartTasksFlow(cfg: Config, app: App): (r: Reaction)
    ensures S.RunStartTasks in r.calls ==> r.app.session.status == S.Started
    ensures S.RunStartTasks !in r.calls ==> r.app.session.status == app.session.status && r.calls == []
    ensures r.app.session.acquisitionDirectory
         == CreateAcquisitionDirectory(app.fs, cfg.casesRoot, cfg.caseInfo, cfg.acquisitionType).Directory()
    ensures CreateAcquisitionDirectory(app.fs, cfg.casesRoot, cfg.caseInfo, cfg.acquisitionType).NotAllocated?
            ==> r.app.session.status == app.session.status && r.calls == [] && r.app.options == app.options
  {
    var alloc := CreateAcquisitionDirectory(app.fs, cfg.casesRoot, cfg.caseInfo, cfg.acquisitionType);
    var app1 := app.(fs := alloc.fs, session := app.session.(acquisitionDirectory := alloc.Directory()));
    if alloc.NotAllocated? then Reaction(app1, [], false)
    else
      var shot := CreateAcquisitionSubdirectory(app1.fs, Some(alloc.dir), [ScreenshotFolder]);
      var app2 := app1.(fs := shot.fs);
      if shot.Refused? then Reaction(app2, [], false)
      else
        var page := MakeDirs(app2.fs, alloc.dir + [PageFolder], true);
        if !page.Ok() then Reaction(app2.(fs := page.fs), [], true)
        else
          var base := S.ExecuteStartTasksFlow(app2.session);
          Reaction(App(page.fs, base.session, Some(OptionsFor(cfg, alloc.dir))), base.calls, base.raised)
  }

  /**
   `TestScraper.on_stop_tasks_finished`: launches post-acquisition directly,
   without the base class's indicator reset.
   */
  function OnStopTasksFinished(app: App): (r: Reaction)
    ensures r.app.session.postStarted && r.app.session.status == app.session.status
    ensures r.calls == [S.StartPostAcquisition] && !r.raised
    ensures r.app.session.indicatorsVisible == app.session.indicatorsVisible
  {
    Reaction(app.(session := app.session.(postStarted := true)), [S.StartPostAcquisition], false)
  }

  /** The override differs from the base handler only in leaving the indicators as they were. */
  lemma StopFinishedOverride(app: App)
    ensures var base := S.OnStopTasksFinished(app.session);
      && OnStopTasksFinished(app).calls == base.calls
      && OnStopTasksFinished(app).app.session.(indicatorsVisible := true) == base.session
  {
  }

  /** Button clicks and runner signals. */
  datatype Event = StartClicked | StartTasksFinished | StopClicked | StopTasksFinished | PostAcquisitionFinished

  function Lift(app: App, step: S.Step): Reaction {
    Reaction(app.(session := step.session), step.calls, step.raised)
  }

  function Handle(cfg: Config, app: App, e: Event): Reaction {
    match e
    case StartClicked => ExecuteStartTasksFlow(cfg, app)
    case StartTasksFinished => Lift(app, S.OnStartTasksFinished(app.session))
    case StopClicked => Lift(app, S.ExecuteStopTasksFlow(app.session))
    case StopTasksFinished => OnStopTasksFinished(app)
    case PostAcquisitionFinished => Lift(app, S.OnPostAcquisitionFinished(app.session))
  }

  /**
   Only the start click touches the file system and the options; the other
   events go to the session alone. The overridden stop-finished handler starts
   the post-acquisition and leaves the indicators as they were.
   */
  lemma HandleFrame(cfg: Config, app: App, e: Event)
    ensures var r := Handle(cfg, app, e);
      && (e != StartClicked ==> r.app.fs == app.fs && r.app.options == app.options)
      && (e == StopTasksFinished ==>
            r.calls == [S.StartPostAcquisition] && r.app.session.indicatorsVisible == app.session.indicatorsVisible)
  {
  }

  /** Handles the events in order; calls accumulate and `raised` records any handler that raised. */
  function Run(cfg: Config, app: App, events: seq<Event>): Reaction
    decreases |events|
  {
    if events == [] then Reaction(app, [], false)
    else
      var first := Handle(cfg, app, events[0]);
      var rest := Run(cfg, first.app, events[1..]);
      Reaction(rest.app, first.calls + rest.calls, first.raised || rest.raised)
  }

  /** The status after each event. */
  function Statuses(cfg: Config, app: App, events: seq<Event>): (ss: seq<S.Status>)
    ensures |ss| == |events|
    decreases |events|
  {
    if events == [] then []
    else
      var first := Handle(cfg, app, events[0]);
      [first.app.session.status] + Statuses(cfg, first.app, events[1..])
  }

  /** The events that follow a successful start click in a normal acquisition. */
  const AfterStart: seq<Event> := [StartTasksFinished, StopClicked, StopTasksFinished, PostAcquisitionFinished]

  /** A normal acquisition: start, start finished, stop, stop finished, post-acquisition finished. */
  const Protocol: seq<Event> := [StartClicked] + AfterStart

  /** Handling a first event, then the rest. */
  lemma RunCons(cfg: Config, app: App, e: Event, rest: seq<Event>)
    ensures var h := Handle(cfg, app, e);
      var t := Run(cfg, h.app, rest);
      && Run(cfg, app, [e] + rest) == Reaction(t.app, h.calls + t.calls, h.raised || t.raised)
      && Statuses(cfg, app, [e] + rest) == [h.app.session.status] + Statuses(cfg, h.app, rest)
  {
    assert ([e] + rest)[0] == e && ([e] + rest)[1..] == rest;
  }

  function InitialApp(fs: FileSystem, fromWizard: bool): App {
    App(fs, S.Initial(fromWizard), None)
  }

  /**
   The base start transition happens exactly when the acquisition directory,
   its `screenshot` and its `acquisition_page` directories could all be
   created; then the options name the new directory and its `screenshot`
   directory, and both directories exist. Otherwise the status is unchanged
   and no task is launched.
   */
  lemma StartGating(cfg: Config, app: App)
    requires Valid(app.fs)
    ensures var r := ExecuteStartTasksFlow(cfg, app);
      var alloc := CreateAcquisitionDirectory(app.fs, cfg.casesRoot, cfg.caseInfo, cfg.acquisitionType);
      && Valid(r.app.fs)
      && (S.RunStartTasks in r.calls <==>
            && alloc.Allocated?
            && CreateAcquisitionSubdirectory(alloc.fs, Some(alloc.dir), [ScreenshotFolder]).Done?
            && MakeDirs(CreateAcquisitionSubdirectory(alloc.fs, Some(alloc.dir), [ScreenshotFolder]).fs,
                        alloc.dir + [PageFolder], true).Ok())
      && (S.RunStartTasks in r.calls ==>
            && r.app.session.status == S.Started
            && r.app.options == Some(OptionsFor(cfg, alloc.dir))
            && IsDir(r.app.fs, alloc.dir + [ScreenshotFolder])
            && IsDir(r.app.fs, alloc.dir + [PageFolder]))
      && (S.RunStartTasks !in r.calls ==> r.app.session.status == app.session.status && r.calls == [])
  {
    var alloc := CreateAcquisitionDirectory(app.fs, cfg.casesRoot, cfg.caseInfo, cfg.acquisitionType);
    AllocationSpec(app.fs, cfg.casesRoot, cfg.caseInfo, cfg.acquisitionType);
    if alloc.Allocated? {
      var shot := CreateAcquisitionSubdirectory(alloc.fs, Some(alloc.dir), [ScreenshotFolder]);
      SubdirectorySpec(alloc.fs, Some(alloc.dir), [ScreenshotFolder]);
      if shot.Done? {
        MakeDirsSpec(shot.fs, alloc.dir + [PageFolder], true);
      }
    }
  }

  /** With a case name and nothing in the way, the start flow reaches the base start transition. */
  lemma StartSucceedsWhenUnobstructed(cfg: Config, app: App)
    requires Valid(app.fs)
    requires "name" in cfg.caseInfo
    requires Unobstructed(app.fs, TypeFolder(cfg.casesRoot, cfg.caseInfo["name"], cfg.acquisitionType))
    ensures var alloc := CreateAcquisitionDirectory(app.fs, cfg.casesRoot, cfg.caseInfo, cfg.acquisitionType);
      var r := ExecuteStartTasksFlow(cfg, app);
      && alloc.Allocated?
      && r.calls == [S.LoadTasks, S.LogStartMessage, S.RunStartTasks] && !r.raised
      && r.app.session.status == S.Started && r.app.session.overlayBuilt
      && r.app.session.acquisitionDirectory == Some(alloc.dir)
  {
    var typeFolder := TypeFolder(cfg.casesRoot, cfg.caseInfo["name"], cfg.acquisitionType);
    AllocationSucceedsWhenUnobstructed(app.fs, cfg.casesRoot, cfg.caseInfo, cfg.acquisitionType);
    AllocationSpec(app.fs, cfg.casesRoot, cfg.caseInfo, cfg.acquisitionType);
    var alloc := CreateAcquisitionDirectory(app.fs, cfg.casesRoot, cfg.caseInfo, cfg.acquisitionType);
    var dir := alloc.dir;
    assert typeFolder <= dir;
    // Below the type folder there is nothing in the way of the two sub-directories.
    var shotPath := dir + [ScreenshotFolder];
    forall k | 1 <= k <= |shotPath|
      ensures shotPath[..k] !in alloc.fs.files && shotPath[..k] !in alloc.fs.mkdirRefused
    {
      if k <= |typeFolder| {
        assert shotPath[..k] <= typeFolder;
      } else {
        assert typeFolder <= shotPath[..k];
      }
    }
    SubdirectorySpec(alloc.fs, Some(dir), [ScreenshotFolder]);
    var shot := CreateAcquisitionSubdirectory(alloc.fs, Some(dir), [ScreenshotFolder]);
    var pagePath := dir + [PageFolder];
    forall k | 1 <= k <= |pagePath|
      ensures pagePath[..k] !in shot.fs.files && pagePath[..k] !in shot.fs.mkdirRefused
    {
      if k <= |typeFolder| {
        assert pagePath[..k] <= typeFolder;
      } else {
        assert typeFolder <= pagePath[..k];
      }
    }
    MakeDirsSpec(shot.fs, pagePath, true);
  }

  /**
   Once the start flow has run, start finished, stop, stop finished and post
   finished give the statuses STARTED, STOPPED, STOPPED, FINISHED; nothing
   raises and the runner sees the stop tasks, the post-acquisition and the
   finishing calls in that order.
   */
  lemma RestOfProtocol(cfg: Config, app: App)
    requires app.session.status == S.Started && app.session.overlayBuilt
    ensures var r := Run(cfg, app, AfterStart);
      && Statuses(cfg, app, AfterStart) == [S.Started, S.Stopped, S.Stopped, S.Finished]
      && r.app.session.status == S.Finished
      && !r.raised
      && r.app.session.acquisitionDirectory == app.session.acquisitionDirectory
      && r.calls == [S.LogStopMessage, S.RunStopTasks,
                     S.StartPostAcquisition,
                     S.LogEndMessage, S.SetCompletedProgressBar, S.UnloadTasks,
                     S.ShowFinishDialog(app.session.acquisitionDirectory)]
  {
    var e2 := [StopClicked, StopTasksFinished, PostAcquisitionFinished];
    var e3 := [StopTasksFinished, PostAcquisitionFinished];
    var e4: seq<Event> := [];
    assert AfterStart == [StartTasksFinished] + e2;
    assert e2 == [StopClicked] + e3;
    assert e3 == [StopTasksFinished] + [PostAcquisitionFinished];
    assert [PostAcquisitionFinished] == [PostAcquisitionFinished] + e4;
    var r1 := Handle(cfg, app, StartTasksFinished);
    var r2 := Handle(cfg, r1.app, StopClicked);
    var r3 := Handle(cfg, r2.app, StopTasksFinished);
    var r4 := Handle(cfg, r3.app, PostAcquisitionFinished);
    RunCons(cfg, r3.app, PostAcquisitionFinished, e4);
    RunCons(cfg, r2.app, StopTasksFinished, [PostAcquisitionFinished]);
    RunCons(cfg, r1.app, StopClicked, e3);
    RunCons(cfg, app, StartTasksFinished, e2);
    assert r1.calls == [] && !r1.raised && r1.app.session.status == S.Started && r1.app.session.overlayBuilt;
    assert r2.calls == [S.LogStopMessage, S.RunStopTasks] && !r2.raised && r2.app.session.status == S.Stopped;
    assert r3.calls == [S.StartPostAcquisition] && !r3.raised && r3.app.session.status == S.Stopped;
    assert r4.app.session.status == S.Finished && !r4.raised;
  }

  /**
   With a case name and nothing in the way, the whole acquisition runs:
   start, start finished, stop, stop finished, post finished give the statuses
   STARTED, STARTED, STOPPED, STOPPED, FINISHED, closing becomes possible only
   at the end, no handler raises, and the runner sees exactly the start tasks,
   the stop tasks and the post-acquisition in that order, followed by the hand
   over of the new acquisition directory.
   */
  lemma HappyPath(cfg: Config, fs: FileSystem, fromWizard: bool)
    requires Valid(fs)
    requires "name" in cfg.caseInfo
    requires Unobstructed(fs, TypeFolder(cfg.casesRoot, cfg.caseInfo["name"], cfg.acquisitionType))
    ensures var app := InitialApp(fs, fromWizard);
      var alloc := CreateAcquisitionDirectory(fs, cfg.casesRoot, cfg.caseInfo, cfg.acquisitionType);
      var r := Run(cfg, app, Protocol);
      && alloc.Allocated?
      && Statuses(cfg, app, Protocol) == [S.Started, S.Started, S.Stopped, S.Stopped, S.Finished]
      && S.CanClose(r.app.session.status)
      && !r.raised
      && r.app.session.acquisitionDirectory == Some(alloc.dir)
      && r.calls == [S.LoadTasks, S.LogStartMessage, S.RunStartTasks,
                     S.LogStopMessage, S.RunStopTasks,
                     S.StartPostAcquisition,
                     S.LogEndMessage, S.SetCompletedProgressBar, S.UnloadTasks,
                     S.ShowFinishDialog(Some(alloc.dir))]
  {
    var app := InitialApp(fs, fromWizard);
    StartSucceedsWhenUnobstructed(cfg, app);
    ProtocolAfterStart(cfg, app);
    ProtocolCallsAfterStart(cfg, app);
  }

  /**
   Once the start click has launched the start tasks, the rest of the protocol
   follows: the five statuses, a closable end, no handler raising, and the
   directory chosen at start kept to the end.
   */
  lemma ProtocolAfterStart(cfg: Config, app: App)
    requires var first := ExecuteStartTasksFlow(cfg, app);
      && !first.raised && first.app.session.status == S.Started && first.app.session.overlayBuilt
    ensures var first := ExecuteStartTasksFlow(cfg, app);
      var r := Run(cfg, app, Protocol);
      && Statuses(cfg, app, Protocol) == [S.Started, S.Started, S.Stopped, S.Stopped, S.Finished]
      && S.CanClose(r.app.session.status)
      && !r.raised
      && r.app.session.acquisitionDirectory == first.app.session.acquisitionDirectory
  {
    var first := Handle(cfg, app, StartClicked);
    RestOfProtocol(cfg, first.app);
    RunCons(cfg, app, StartClicked, AfterStart);
    StatusesConcat(first.app.session.status, Statuses(cfg, first.app, AfterStart));
  }

  /** The calls of the same run: the start calls, then those of the rest of the protocol. */
  lemma ProtocolCallsAfterStart(cfg: Config, app: App)
    requires var first := ExecuteStartTasksFlow(cfg, app);
      && first.calls == [S.LoadTasks, S.LogStartMessage, S.RunStartTasks]
      && first.app.session.status == S.Started && first.app.session.overlayBuilt
    ensures Run(cfg, app, Protocol).calls
      == [S.LoadTasks, S.LogStartMessage, S.RunStartTasks,
          S.LogStopMessage, S.RunStopTasks,
          S.StartPostAcquisition,
          S.LogEndMessage, S.SetCompletedProgressBar, S.UnloadTasks,
          S.ShowFinishDialog(ExecuteStartTasksFlow(cfg, app).app.session.acquisitionDirectory)]
  {
    var first := Handle(cfg, app, StartClicked);
    RestOfProtocol(cfg, first.app);
    RunCons(cfg, app, StartClicked, AfterStart);
    var rest := Run(cfg, first.app, AfterStart);
    CallsConcat(first.calls, rest.calls, first.app.session.acquisitionDirectory);
  }

  /** The status after the start click followed by those of the rest of the protocol. */
  lemma StatusesConcat(x: S.Status, t: seq<S.Status>)
    requires x == S.Started && t == [S.Started, S.Stopped, S.Stopped, S.Finished]
    ensures [x] + t == [S.Started, S.Started, S.Stopped, S.Stopped, S.Finished]
  {
  }

  /** The start calls followed by the calls of the rest of the protocol. */
  lemma CallsConcat(a: seq<S.Call>, b: seq<S.Call>, dir: Option<Path>)
    requires a == [S.LoadTasks, S.LogStartMessage, S.RunStartTasks]
    requires b == [S.LogStopMessage, S.RunStopTasks, S.StartPostAcquisition,
                   S.LogEndMessage, S.SetCompletedProgressBar, S.UnloadTasks, S.ShowFinishDialog(dir)]
    ensures a + b == [S.LoadTasks, S.LogStartMessage, S.RunStartTasks,
                      S.LogStopMessage, S.RunStopTasks,
                      S.StartPostAcquisition,
                      S.LogEndMessage, S.SetCompletedProgressBar, S.UnloadTasks,
                      S.ShowFinishDialog(dir)]
  {
  }

  /**
   Pressing stop before start: the status still becomes STOPPED, but the
   handler raises before any stop task runs, and then the window
   refuses to close (standalone) or to return to the wizard.
   */
  lemma StopBeforeStartLocksWindow(cfg: Config, fs: FileSystem, fromWizard: bool)
    ensures var r := Handle(cfg, InitialApp(fs, fromWizard), StopClicked);
      && r.app.session.status == S.Stopped
      && r.raised && r.calls == []
      && !S.CloseEvent(r.app.session).accepted
      && !S.CloseEvent(r.app.session).backToWizard
  {
  }
}
