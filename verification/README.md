# fit-scraper acquisition core, modelled in Dafny

This project models the sequential core of the FIT scraper window. It covers
two parts of the `Scraper` base class and the `TestScraper` subclass that
configures it.

1. **The acquisition-directory allocator.** It makes sure
   `<cases>/<case name>/<acquisition type>` exists. It opens the permissions of
   each of those folders that it had to create. It then creates the next
   `acquisition_<N>` directory inside the type folder. On request it also
   creates sub-directories inside that directory.
2. **The acquisition status machine and close guard.** The status is
   UNSTARTED, STARTED, STOPPED or FINISHED. The start flow, stop flow and
   runner signals move it between these values. Closing the window is allowed
   only before the acquisition starts and after it finishes.

The filesystem is abstract. A path is a sequence of segment names. The
filesystem holds a set of directory paths, a set of non-directory entries and
a set of paths whose mode was opened. It also holds two sets of refused
paths: the OS refuses to create a path in the first set, and refuses to
change the mode of a path in the second. The two refusals are independent,
so a folder can be created and then have its mode refused.
`MkDir`, `MakeDirs` and `Chmod` reproduce what the program relies on from
`os.mkdir`, `os.makedirs` and `os.chmod`:

- creating a path that exists is an error;
- creating a path whose parent is missing or is a file is an error;
- `makedirs` creates the missing ancestors first and keeps them if a later
  step fails;
- with `exist_ok`, `makedirs` accepts a path that is already a directory.

The external acquisition runner is represented by the calls the handlers make
on it (`Scraper.Call`). Settle delays are no-ops.

Files:

- `maybe.dfy` holds `Option`.
- `filesystem.dfy` holds the abstract filesystem and the `makedirs` theorem.
- `names.dfy` covers `acquisition_<digits>` names: matching, digit filter,
  decimal parse and render, and the maximum index.
- `allocator.dfy` covers `create_acquisition_directory` and
  `create_acquisition_subdirectory`.
- `scraper.dfy` covers the base-class handlers and `closeEvent`.
- `test_scraper.dfy` covers the subclass. That includes the task lists, start
  gating, the stop-finished override, event dispatch and end-to-end runs.

## Behaviour the model makes explicit

- The allocator scans the siblings only when `acquisition_1` is already a
  directory. With only `acquisition_3` present, the new directory is
  `acquisition_1` (`Allocator.FirstNameBeforeScan`). Otherwise the new index
  is one past the largest index among matching directory names
  (`Allocator.NextDirectoryChoice`). Gaps are kept, and files in the type
  folder never count (`Allocator.GapsKeptInTypeFolder`,
  `Allocator.NextDirectoryIgnoresFiles`). Either way, nothing existed at the
  new path before the call (`Allocator.AllocationSpec`).
- The allocator opens the permissions of the cases, case and type folders
  only when it created them. It does not do this for the acquisition
  directory itself. When the mode change of a folder it just created is
  refused, the call fails but the folder stays. A second call then finds the
  folder and leaves its mode as it is (`Allocator.ChmodRefusedRetrySkips`).
- The handlers assign the status unconditionally. Nothing rejects an
  out-of-order trigger. A start after FINISHED moves the status back to
  STARTED (`Scraper.RestartAfterFinish`). A stop after FINISHED runs the stop
  tasks again and leaves the window unclosable (`Scraper.StopAfterFinish`).
- `TestScraper.__init_execution_overlay` is name-mangled, so it does not build
  the base class's spinner and tasks overlay. Only the base start flow builds
  them. Pressing stop before start therefore sets STOPPED and then raises
  `AttributeError` on the missing overlay, so no stop task runs. The window
  then refuses to close (`TestScraper.StopBeforeStartLocksWindow`). In the
  same way, `on_start_tasks_finished` raises before it changes anything, and
  `on_post_acquisition_finished` raises after it sets FINISHED. A raised
  exception keeps the assignments made before it (`raised` in `Scraper.Step`).
- The subclass's `on_stop_tasks_finished` launches post-acquisition directly.
  It skips the base class's settle delay and its indicator reset.

## Model

| member | source | states |
|---|---|---|
| FileSystem.MkDir | fit_scraper/scraper.py:156 | one directory creation adds exactly that path, and only when nothing was at it; a failure changes nothing |
| FileSystem.Chmod | fit_scraper/scraper.py:110 | opening the mode succeeds exactly on an existing path whose mode change the OS does not refuse, and records it; a failure changes nothing |
| FileSystem.MakeDirs | fit_scraper/scraper.py:109 | when `makedirs` succeeds, the path is a directory |
| FileSystem.MakeDirsSpec | fit_scraper/scraper.py:156 | `makedirs` keeps the tree well formed, adds only directories along the path, and succeeds iff the path is a directory and `exist_ok` holds, or every missing step can be created; afterwards the path is a directory |
| AcquisitionNames.KeepDigits | fit_scraper/scraper.py:146 | the digit filter yields only digits and is no longer than the name |
| AcquisitionNames.DecimalString | fit_scraper/scraper.py:153 | the rendered index is a non-empty digit string without zero padding |
| AcquisitionNames.DecimalRoundTrip | fit_scraper/scraper.py:146-153 | parsing the rendered index gives the index back |
| AcquisitionNames.Matches | fit_scraper/scraper.py:139 | a name matches exactly when it is `acquisition_` followed by one or more digits and nothing else |
| AcquisitionNames.Index | fit_scraper/scraper.py:146 | the index of a matching name is the decimal value of its digits, non-digits dropped |
| AcquisitionNames.IndexIsSuffixValue | fit_scraper/scraper.py:139-146 | for a name matching `^acquisition_(\d+)$`, the value of all its digits is the value of its suffix |
| AcquisitionNames.NameRoundTrip | fit_scraper/scraper.py:139-153 | every generated `acquisition_<N>` matches the pattern and reads back as N |
| AcquisitionNames.LeadingZeroIgnored | fit_scraper/scraper.py:146 | a leading zero does not change the parsed index |
| AcquisitionNames.MaxIndex | fit_scraper/scraper.py:144-150 | the result is the largest index of a matching name, 0 when there is none |
| AcquisitionNames.MaxIndexUnique | fit_scraper/scraper.py:144-150 | the maximum is determined by that property |
| AcquisitionNames.NextNameIsFresh | fit_scraper/scraper.py:144-154 | max+1 exceeds every existing index, so `acquisition_<max+1>` is not an existing name |
| AcquisitionNames.NonMatchingNameIgnored | fit_scraper/scraper.py:137-142 | adding a name that does not match the pattern leaves the maximum unchanged |
| AcquisitionNames.NonDigitSuffixDoesNotMatch | fit_scraper/scraper.py:139 | `acquisition_x` does not match the pattern |
| AcquisitionNames.GapsAreNotFilled | fit_scraper/scraper.py:144-154 | with indices 1, 3, 5 and the names `notes` and `acquisition_x`, the maximum is 5: gaps are not filled |
| AcquisitionNames.NameSpelling | fit_scraper/scraper.py:126-128 | the first name is `acquisition_1`; index 6 and 10 are spelled `acquisition_6` and `acquisition_10` |
| Allocator.NextDirectory | fit_scraper/scraper.py:126-154 | the chosen directory is one level below the type folder |
| Allocator.NextDirectoryChoice | fit_scraper/scraper.py:126-154 | the chosen name matches the pattern; it is `acquisition_1` while that is not a directory, and otherwise one past the largest index among the matching directories in the type folder, so above each of them |
| Allocator.NextDirectoryIgnoresFiles | fit_scraper/scraper.py:131-135 | files in the type folder never change the choice: only directories are listed |
| Allocator.FirstNameBeforeScan | fit_scraper/scraper.py:126-130 | with `acquisition_3` the only directory in the type folder, the choice is `acquisition_1` |
| Allocator.GapsKeptInTypeFolder | fit_scraper/scraper.py:130-154 | in any type folder whose directory entries are exactly those for 1, 3, 5, `notes` and `acquisition_x`, and which also holds a file for 9, the choice is `acquisition_6` |
| Allocator.NextDirectoryNotADirectory | fit_scraper/scraper.py:130-154 | the chosen directory is not an existing directory, in both branches |
| Allocator.CreateAcquisitionDirectory | fit_scraper/scraper.py:102-168 | a case record without a name fails; on success the returned directory exists |
| Allocator.EnsureFolder | fit_scraper/scraper.py:108-111 | a folder that already exists is left alone and the step succeeds; a folder that had to be created ends up a directory with its mode opened when the step succeeds |
| Allocator.EnsureFolderSpec | fit_scraper/scraper.py:108-124 | a folder is created only when nothing is at its path, and only then is its mode opened; the step succeeds iff something is at the path, or the folder can be created and its mode change is not refused; a creatable folder exists afterwards even when its mode change was refused |
| Allocator.ChmodRefusedRetrySkips | fit_scraper/scraper.py:108-124 | when creating a folder succeeds but its mode change is refused, the call fails and leaves the folder; a second call succeeds without changing anything, so the folder's mode is never opened |
| Allocator.EnsureChainSpec | fit_scraper/scraper.py:108-124 | after the three folder steps, exactly the previously missing folders have open permissions, and no directory deeper than the type folder was added |
| Allocator.AllocationSpec | fit_scraper/scraper.py:102-157 | on success the cases, case and type folders and the new directory are directories; the new directory is `NextDirectory` of the filesystem before the call and nothing existed there; only created folders were chmodded, never the acquisition directory |
| Allocator.MakeNextDirectorySpec | fit_scraper/scraper.py:154-157 | creating the chosen directory succeeds only where nothing existed; it then is a directory below directories and carries no opened mode |
| Allocator.AllocationSucceedsWhenUnobstructed | fit_scraper/scraper.py:102-157 | with a case name and no file or refusal along the type folder, allocation succeeds |
| Allocator.CreateAcquisitionSubdirectory | fit_scraper/scraper.py:170-176 | without an acquisition directory the call fails with "directory does not exist" and changes nothing |
| Allocator.SubdirectorySpec | fit_scraper/scraper.py:170-192 | success iff a directory is set, `dir/sub` is or can become a directory, and its mode change is not refused; then it is a directory with open permissions |
| Allocator.SubdirectoryIdempotent | fit_scraper/scraper.py:177-180 | a second identical call succeeds and changes nothing |
| Scraper.Initial | fit_scraper/scraper.py:33-37 | a new window is UNSTARTED, closable, with no acquisition directory |
| Scraper.ExecuteStartTasksFlow | fit_scraper/scraper.py:194-205 | the status becomes STARTED whatever it was; the overlay exists; the tasks are loaded, then the start tasks launched |
| Scraper.OnStartTasksFinished | fit_scraper/scraper.py:207-214 | the status is unchanged; the indicators are hidden, or the handler raises when no overlay exists and changes nothing |
| Scraper.ExecuteStopTasksFlow | fit_scraper/scraper.py:216-224 | the status becomes STOPPED whatever it was; the stop tasks run iff the overlay exists, otherwise the handler raises |
| Scraper.ExecutePostAcquisitionTasksFlow | fit_scraper/scraper.py:233-234 | post-acquisition is launched; the status is unchanged |
| Scraper.OnStopTasksFinished | fit_scraper/scraper.py:226-231 | post-acquisition is always launched; the status is unchanged |
| Scraper.OnPostAcquisitionFinished | fit_scraper/scraper.py:236-251 | the status becomes FINISHED and closable; the acquisition directory goes to the finish dialog iff the overlay exists |
| Scraper.CanClose | fit_scraper/scraper.py:300-305 | closing is allowed exactly when the status is UNSTARTED or FINISHED |
| Scraper.CloseEvent | fit_scraper/scraper.py:300-328 | from a wizard the event is never accepted and control returns to the wizard iff closing is allowed; standalone, the event is accepted iff closing is allowed; a warning is shown iff it is not |
| Scraper.CloseKeepsRunningAcquisition | fit_scraper/scraper.py:300-313 | while STARTED or STOPPED, the window neither closes nor returns to the wizard |
| Scraper.RestartAfterFinish | fit_scraper/scraper.py:194-195 | starting again after FINISHED moves the status back to STARTED: nothing guards the trigger |
| Scraper.StopAfterFinish | fit_scraper/scraper.py:216-224 | stopping after FINISHED sets STOPPED, runs the stop tasks again, and makes the window unclosable |
| TestScraper.TaskListsPairUp | main.py:29-42 | every start task also appears in the stop list; the 8-entry stop list ends with the start list |
| TestScraper.OptionsFor | main.py:81-92 | the options name the acquisition directory and its `screenshot` directory |
| TestScraper.ExecuteStartTasksFlow | main.py:74-94 | when the start tasks launch the status is STARTED, otherwise the status stays and nothing is called; `acquisition_directory` is the allocator's result; a failed allocation also leaves the options untouched |
| TestScraper.StartGating | main.py:74-94 | the start tasks launch iff the directory, its `screenshot` and its `acquisition_page` are all created; then the status is STARTED, the options are recorded and both sub-directories exist; otherwise the status is unchanged |
| TestScraper.StartSucceedsWhenUnobstructed | main.py:74-94 | with a case name and nothing in the way, the start flow reaches STARTED and launches the start tasks |
| TestScraper.OnStopTasksFinished | main.py:106-111 | the override launches post-acquisition, keeps the status and leaves the indicators alone |
| TestScraper.StopFinishedOverride | main.py:106-107 | the override makes the same calls as the base handler and differs only in the indicator reset |
| TestScraper.Handle | main.py:67-68 | the start and stop buttons go to the subclass start flow and the base stop flow; the runner's signals go to their handlers, stop-finished to the override |
| TestScraper.HandleFrame | fit_scraper/scraper.py:64-67 | only the start click changes the filesystem or the options; the stop-finished signal starts the post-acquisition and keeps the indicators |
| TestScraper.RestOfProtocol | fit_scraper/scraper.py:207-243 | after a start, the signals in order give STARTED, STOPPED, STOPPED, FINISHED, with the stop, post and finish calls in order; the stop-finished step is the override of `main.py`, lines 106-107 |
| TestScraper.HappyPath | main.py:74-118 | an unobstructed acquisition runs UNSTARTED to FINISHED in five events, closable only at the end, with exactly the expected runner calls |
| TestScraper.ProtocolAfterStart | main.py:74-118 | once the start click has launched the start tasks, the full protocol gives the five statuses, ends closable without raising, and keeps the directory chosen at start |
| TestScraper.ProtocolCallsAfterStart | main.py:74-118 | in the same run the runner sees the start calls, the stop calls, the post-acquisition and the finishing calls in that order, and the finish dialog gets the directory chosen at start |
| TestScraper.StopBeforeStartLocksWindow | fit_scraper/scraper.py:216-219 | stop before start sets STOPPED, raises before any stop task runs, and closing is then refused |

## Left out

- `fit_scraper/test.py` is a threading and spinner demonstration with no acquisition logic.
- Settle delays (`QEventLoop` with `QTimer.singleShot`) are treated as no-ops. The delayed closing of the tasks overlay is also not modelled.
- Spinner, tasks overlay, resize, window drag, progress-bar values and error dialogs are presentation only. An error dialog's cause is kept as `Allocator.Cause`.
- `_reset_acquisition_indicators` is modelled only as the visibility flag. Its last two lines read attributes without effect.
- The external runner (`Acquisition`) is represented only by the calls made on it. Its task execution, logging and progress are not modelled, and neither are the `debug` messages in `main.py`.
- The cases folder comes from external configuration. It is a parameter that is already user-expanded; `expanduser` is not modelled.
- The window is assumed to be constructed with a case record. The case dialog and `has_valid_case` are not modelled.
- The acquisition type is a parameter. The value of the `AcquisitionType.WEB` enumeration is not part of this model.
- Pattern matching covers ASCII digits only. Unicode digits accepted by `\d` and `str.isdigit` are not modelled, and neither is `$` matching before a trailing newline.
- Each case name, type name and sub-path segment is one path segment. Separators inside a name, absolute sub-paths and empty names are not modelled.
- OS failures appear only as the two refusal sets and files in the way. A failing directory listing and the exact permission bits are not modelled; permissions are just membership in `chmodded`.
- Two processes can race between the scan and the creation. `makedirs` ignores an ancestor created concurrently. Concurrency is not modelled.
- `current_widget` and `window_pos` are window handles and are not in `TestScraper.Options`.
- Allocator.AllocationSpec: states what success guarantees, but gives no exact condition for failure. `Allocator.AllocationSucceedsWhenUnobstructed` gives a sufficient condition for success.
