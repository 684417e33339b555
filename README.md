# DeployGo, modelled in Dafny

DeployGo detaches a long-running deployment script from the caller that asks
for it. `deploygo deploy` validates three paths and writes a task record to a
temporary file. It then starts the same executable again with
`internal-run --taskFile <tmp>` and exits without waiting. The background
instance reads the task back and runs `bash <script>` in the project
directory. It writes a timestamped active log (`deployment.log`), appends an
outcome entry, rotates the log to `deployment_<ts>.log` and removes the task
file. The queue runner in deployer.go does the same for `task_*.json` files it
finds in a queue directory. zero-downtime.go offers helpers that a script can
call: create a release directory, point a `current` link at the latest
release, and a health check.

The model works over an abstract filesystem: a map from path to node, where a
node is a file (permission bits and lines), a directory or a symbolic link.
`Os.Host` is a class holding that map together with the working directory,
the number of clock readings the program has taken for its own timestamps,
the console (standard output, standard error and the messages of the `log`
package, as lines, without the date and time `log` adds) and the processes
started. Paths are keys of the map; the working directory is recorded but
does not take part in resolving a path. The calls that change something are `Host` methods, each paired
with a pure function that states its effect: opening a file, `Chdir`,
`Chmod`, `Rename`, `Remove`, `MkdirAll`, `Symlink`, `CreateTemp`, writing,
starting a process, printing and reading the clock. The calls that only look
are pure functions of the host's filesystem: `os.Stat` is `Os.Stat`,
`os.ReadFile` is `Os.ReadFile`, and `os.Lstat` succeeds exactly when the
path is a key of the map. What `os.ReadDir` lists and what `os.Executable`
returns are inputs. The program's operations are methods on a `Host`. Each
one is proved against a specification function:

- `Deployment.Plan` is the run of a task: every step and every early exit,
  with the entries each one logs.
- `Launcher.Finished` and `Deployer.Wrapped` are what happens after the run.
- `Launcher.SpawnEffect` and `Launcher.DeployEffect` are what one `deploy`
  invocation leaves behind: exit status, filesystem, clock readings, printed
  lines, started processes. `Launcher.RanTask` and
  `Launcher.InternalRunDone` state the same for `internal-run`.
- `ZeroDowntime.Latest` is the release selection.

The lemmas prove what the program promises about those functions.

Everything the filesystem cannot decide is an input of the model:

- the outcome of chmod, of the two pipes, of the start and of the exit;
- the lines the script prints;
- the scheduler's choices between the two stream readers;
- the temporary file's random name;
- the outcome of marshal, of write, of executable lookup and of the
  background start;
- directory listings.

Time is a fixed function from the index of a clock reading to a Unix
nanosecond value. The two Go time layouts are fixed functions too.

Modules follow the source files:

- `Deployment` models deployment.go.
- `Launcher` models main.go.
- `Deployer` models deployer.go.
- `ZeroDowntime` models zero-downtime.go.

Beside them are `Paths` (absolute paths, `Join`, `Base`, decimal rendering),
`Os` (filesystem and host), `LogFormat` (line formats and clock-stamped
rendering), `Streams` (the two output streams and their interleaving) and
`TaskFile` (the task record's encoding).

deployer.go's `executeDeployment`, `readAndLogOutput`, `writeLogEntry` and
`writeLog` (deployer.go:109-230) match deployment.go:48-166 line for line;
only comments differ. `Deployer` therefore calls the `Deployment` members for
them. Only `rotateLog` is its own: it has no existence check, and the two
rotations are separate functions in separate modules.

Where the code and the design description disagree, the model follows the
code:

- No writability probe of the log directory is made.
- The chmod target is 0755, not owner-execute only.
- deployer.go's rotation of a missing log is an error, which is only logged.
- A line the script prints is not always logged. `cmd.Wait` closes the
  pipes before the readers are waited for, so a reader can stop early. The
  model takes the number of lines each reader copies as an input; see
  Findings.

## Model

| member | source | states |
|---|---|---|
| Deployment.ValidatePaths | deployment.go:23-46 | nil exactly when all three paths are absolute and none is reported not-existing by stat; it is a function of the filesystem, so it has no side effects |
| Deployment.ValidateIsFirstFailure | deployment.go:23-46 | the message returned is that of the first failing check in the fixed order project abs/exists, script abs/exists, logs abs/exists |
| Deployment.FirstFailureIsFirst | deployment.go:23-46 | a chain of early returns yields nil exactly when every check passes, and otherwise the message of a failing check whose predecessors all pass |
| Deployment.BelowFileIsNotMissing | deployment.go:27-43 | a path below a regular file fails stat with ENOTDIR, which os.IsNotExist does not accept, so validation lets it through |
| Deployment.Plan | deployment.go:48-132 | a run that cannot open the log logs nothing; chdir happens only once the log is truncated; the script is started only when both pipes and the start succeed; nil only when the script started and exited 0 |
| Deployment.OnLog | deployment.go:64-68 | the log is truncated; chmod and start happen only after a successful chdir; nil only when the script started and exited 0 |
| Deployment.InProject | deployment.go:70-131 | chmod only when it succeeds, start only when both pipes and the start succeed, nil only after a start and a zero exit |
| Deployment.Launch | deployment.go:95-131 | the script is started exactly when both pipes and the start succeed; the result is nil exactly when it started and exited successfully |
| Deployment.ScriptCommand | deployment.go:85-93 | the script reads DEPLOYER_TASK_ID, DEPLOYER_PROJECT_PATH and DEPLOYER_LOG_PATH back as the task's id, project path and log path |
| Os.AddedVariablesWin | deployment.go:89-93 | variables appended to the inherited environment override inherited values of the same name |
| Os.MissingPathReasons | main.go:111-116 | a missing path is reported by open, rename and remove as "not a directory" when a regular file stands on the way, and as "no such file or directory" otherwise |
| Deployment.PlanShape | deployment.go:59-131 | every truncated log is the header, then at most one chmod warning, then the captured output (only if started), then one terminal entry: the completion marker on success, an [ERROR] entry on failure |
| Deployment.PlanHeaderFirst | deployment.go:59-62 | the first four entries are Started, Project Path, Script Path and Task ID, in that order, before any other entry |
| Deployment.PlanTerminalEntry | deployment.go:64-131 | a failed run logs exactly one [ERROR] entry and a successful one none; the last entry is the completion marker exactly on success |
| Deployment.PlanWarning | deployment.go:77-82 | one [WARNING] entry exactly when the script has no execute bit and chmod fails, none otherwise |
| Deployment.PlanChmodOnlyWithoutExecBit | deployment.go:77-82 | chmod 0755 is applied exactly when the run reaches the mode test, mode & 0111 is zero and the chmod succeeds |
| Deployment.ChmodFailureIsNotFatal | deployment.go:78-82 | a failed chmod does not change whether the script starts, whether the directory changes, or the result |
| Deployment.PlanCapturesEveryLine | deployment.go:114-148 | each stream's logged lines are exactly what its reader copied: a prefix of what the script printed, each line once, in order, tagged with its stream; none when the script never started; all of them when the reader reached the end |
| Deployment.WaitRaceDropsOutput | deployment.go:114-123 | a script printing "a", "b" and exiting 0, whose stdout reader has copied only "a" when the pipe closes, is logged as a success without "b" |
| Deployment.Joined | deployment.go:114-123 | with the readers joined before the wait, each reader copies its whole stream |
| Deployment.JoinedCapturesEveryLine | deployment.go:114-123 | with the readers joined first, every printed line of each stream is logged once, in order, whenever the script started |
| Deployment.DrainOfOneReader | deployment.go:134-148 | when one reader copies nothing, the log's stream lines are exactly ReadAndLogOutput's entries for the other reader |
| Deployment.HelloScenario | deployment.go:59-131 | a script printing "hello" to stdout and exiting 0 logs the header, "[STDOUT] hello" and the completion marker, and the result is nil |
| Deployment.ExecuteDeployment | deployment.go:48-132 | the returned error, the new filesystem (log truncated, then holding the rendered entries of Plan; chmod applied as Plan says), the clock readings, the working directory and the started process all follow Plan |
| Deployment.RunOnLog | deployment.go:57-68 | after truncation the header is written, then chdir; a chdir failure logs one [ERROR] entry and returns |
| Deployment.OpenedLogged | deployment.go:50-55 | a freshly truncated log holds no entries, so everything the run writes afterwards is the whole log |
| Deployment.RunInProject | deployment.go:70-131 | a stat failure of the script logs one [ERROR] entry and returns; otherwise the run continues as InProject says |
| Deployment.MakeExecutable | deployment.go:77-82 | chmod is attempted only without an execute bit; its failure appends one [WARNING] entry |
| Deployment.RunScript | deployment.go:95-131 | each pipe or start failure appends one [ERROR] entry and starts nothing; otherwise exactly one `bash <script>` process is started, the captured output is logged, then the terminal entry |
| Deployment.WriteHeader | deployment.go:59-62 | the four header entries are appended in order |
| Deployment.DrainStreams | deployment.go:114-123 | the two readers append the lines they copied in the order the schedule's interleaving gives, and nothing else |
| Deployment.ReadAndLogOutput | deployment.go:134-148 | for the first `read` lines of the stream (all of them when fewer), one "[ts] [prefix] line" entry each, in order, appended after the log's previous lines, one clock reading each |
| Deployment.WriteLogEntry | deployment.go:150-155 | appends exactly one "[ts] message" line, with the next clock reading, and changes nothing else |
| Deployment.WriteLog | deployment.go:157-166 | opens in append mode: the entry follows the earlier content; if the open fails, the failure is logged and nothing else changes |
| Deployment.LogAppendedKeepsHistory | deployment.go:157-166 | after an append the file the active log leads to holds its old lines plus the new one, and no other path changes |
| Deployment.LogWrittenStaysOpen | deployment.go:157-166 | once one entry could be written, the active log can be opened again |
| Deployment.OutcomeEntry | main.go:126-130 | exactly one of the failure entry carrying the run's error and the success entry |
| Deployment.Rotation | deployment.go:168-176 | with no active log, rotation succeeds and changes nothing; a failed rename changes nothing either |
| Deployment.RotationMovesLog | deployment.go:168-176 | an active log that is a file, or a link to one, moves unchanged to deployment_<ts>.log and the active name becomes free |
| Deployment.RotateLog | deployment.go:168-176 | reads the clock once in the compact layout, then does Rotation's existence check and rename |
| LogFormat.SplitEntryOfEntry | deployment.go:150-155 | an entry line reads back as its timestamp and message |
| LogFormat.RenderAppend | deployment.go:150-155 | writing two runs one after the other gives the lines of both, the second stamped from where the first left the clock |
| LogFormat.RenderAt | deployment.go:150-155 | the i-th line written is the i-th entry stamped with the clock readings that precede it |
| Streams.MergeKeepsEachStream | deployment.go:134-148 | the interleaving of the two readers drops nothing, duplicates nothing and keeps each stream in order |
| Streams.MergeReachesEveryInterleaving | deployment.go:114-123 | every interleaving that keeps each stream's order is the one produced by some schedule |
| Paths.DecimalRoundTrip | main.go:56 | the decimal task id reads back as the nanosecond clock value it was made from |
| Paths.DecimalInjective | main.go:56 | distinct clock readings give distinct task ids |
| Paths.BaseOfJoin | deployer.go:44 | the base name of dir/name is name |
| Paths.BaseEndsPath | deployer.go:44 | the base name is the end of the path |
| TaskFile.DecodeEncode | main.go:69-75 | the background run reads back exactly the task the launcher wrote |
| TaskFile.Decode | main.go:119-123 | decoding succeeds only on a well-formed record, which re-encodes to its input |
| Launcher.NewTask | main.go:52-58 | the task copies the three paths unchanged; its id is the decimal of the first clock reading; its creation time is the second |
| Launcher.BackgroundCommand | main.go:89-98 | the child runs the program's own executable as `internal-run` on the temporary file, in the current directory, with the inherited environment, not waited on |
| Launcher.SpawnOutcome | main.go:60-101 | the spawn exits 0 exactly when create, marshal, write, executable lookup and start all succeed; a failure starts nothing; one line is printed either way |
| Launcher.SpawnFailureLeavesTaskFile | main.go:60-98 | a failure after the temporary file was created leaves that file behind, and no process is started that would remove it |
| Launcher.Spawn | main.go:60-101 | the exit status, filesystem, printed line and started process are SpawnEffect's: create failure changes nothing; marshal or write failure leaves the empty temp file; executable or start failure leaves it holding the task; success starts `internal-run` on it |
| Launcher.DeployOutcome | main.go:39-102 | a launch exits 0 exactly when the flags are given, validation passes and every spawn step succeeds; the flag check and validation read no clock and change no file; exactly one line is printed |
| Launcher.DeployStartsInternalRun | main.go:39-102 | on success, two clock readings, the temp file holds the encoded task, and exactly one process is started: `internal-run` on that file |
| Launcher.HandleDeploy | main.go:39-102 | the exit status, filesystem, clock readings, printed line and started process are DeployEffect's |
| Launcher.OutcomeFollowsRun | main.go:126-130 | the outcome entry lands right after the run's own entries, in the same file the run wrote |
| Launcher.Finished | main.go:126-138 | after the outcome entry, the rotation and the removal, the task file is gone unless a directory stands at its name |
| Launcher.FinishTask | main.go:126-138 | outcome entry, then rotation, then removal of the task file; the filesystem is Finished's, two clock readings at most, and only a failed open of the log prints |
| Launcher.RunArchived | main.go:126-138 | after a run that truncated the log, the rotated file holds the run's entries followed by the outcome entry, and the active log is gone |
| Launcher.RunReadiesArchive | main.go:126-133 | after a run that truncated the log, the log can be opened, holds the run's entries, and nothing blocks its rotation |
| Launcher.FinishedArchives | main.go:126-138 | logging the outcome, rotating and removing the task file leaves the log plus the outcome entry under the rotated name |
| Launcher.QueueWrapUpFinishes | deployer.go:92-106 | whenever the active log opens, the queue runner's wrap-up leaves the same filesystem as handleInternalRun's (main.go:126-138) |
| Launcher.QueueFinishedArchives | deployer.go:92-106 | from a state whose log opens, the queue runner's wrap-up leaves the log plus one outcome entry under the rotated name and frees the active name |
| Launcher.QueueRunArchived | deployer.go:89-106 | after a run that truncated the log, the queue runner's rotated file holds the run's entries followed by one outcome entry, and the active log is gone |
| Launcher.QueueRunFinishes | deployer.go:92-106 | after a truncating run, the queue runner's wrap-up leaves the same filesystem as handleInternalRun's |
| Launcher.ArchiveAfterRun | main.go:126-138 | logging the outcome, rotating and removing the task file leaves the whole log under the rotated name, also when the active log is a link |
| Launcher.RunAndClean | main.go:125-138 | the run, the outcome entry, the rotation and the removal, with the filesystem, clock readings, printed lines, started process and directory all as RanTask states |
| Launcher.HandleInternalRun | main.go:104-139 | exit 1 with one error line and nothing else touched, the task file left, when the name is empty or read or decode fails; otherwise exit 0 after the run, one outcome entry, rotation (its error ignored) and removal of the task file |
| Launcher.ReadBackBelowFile | main.go:111-116 | a task file below a regular file fails to read with "not a directory", and that is the line printed |
| Launcher.ReadBackBelowFileExample | main.go:111-116 | with a regular file at /a, `--taskFile /a/t` prints "Failed to read task file: open /a/t: not a directory" |
| Launcher.Dispatch | main.go:12-37 | fewer than two arguments or an unknown command exits 1 after one line, touching nothing else; `deploy` leaves exactly DeployEffect's state and `internal-run` exactly what InternalRunDone states |
| Deployer.IsTaskFileName | deployer.go:68 | a task name holds both "task_" and ".json" without overlap |
| Deployer.IsTaskEvent | deployer.go:44 | whatever the watcher accepts, the listing test accepts its base name |
| Deployer.EventAgreesWithListing | deployer.go:44 | the watcher's test of a created path agrees with the listing test of its name |
| Deployer.TempFileIsNotATask | deployer.go:68 | the launcher's deploy_task_*.json files are never taken for queue tasks |
| Deployer.TaskPaths | deployer.go:67-72 | at most one path per listing entry, each ending in .json |
| Deployer.TaskPathsExactlyOnce | deployer.go:67-72 | each entry whose name starts with task_ and ends with .json is dispatched once per occurrence; no other entry is |
| Deployer.TaskPathsFromListing | deployer.go:67-72 | everything dispatched is the joined path of a task entry of the listing |
| Deployer.ProcessExistingFiles | deployer.go:60-73 | a listing error dispatches nothing; otherwise the task paths of the listing, in order |
| Deployer.Rotation | deployer.go:232-237 | with no active log the rename fails and nothing changes; a successful rename puts the active log's node at the rotated name |
| Deployer.RotationBelowFile | deployer.go:232-237 | a log directory below a regular file makes the rename fail with "not a directory" and leaves the filesystem unchanged |
| Deployer.RotationWithoutCheck | deployer.go:232-237 | with no active log the rename fails and nothing changes, where deployment.go's rotation succeeds; with an active log the two agree |
| Deployer.RotateLog | deployer.go:232-237 | one clock reading, then an unconditional rename |
| Deployer.Wrapped | deployer.go:92-106 | a failed rotation leaves its note last among the notes, and afterwards the task file is gone unless a directory stands there |
| Deployer.LogOutcome | deployer.go:92-98 | one outcome note, then the outcome entry appended to the log when it can be opened, its open failure noted otherwise |
| Deployer.RotateAndRemove | deployer.go:101-106 | one clock reading; the rotation, its failure noted, then removal of the task file |
| Deployer.WrapUp | deployer.go:92-106 | outcome note and entry, rotation with its failure noted, then removal of the task file |
| Deployer.RunTask | deployer.go:89-106 | one "Processing" note, the run as Plan says, then WrapUp's effect on the state the run left |
| Deployer.ProcessDeploymentTask | deployer.go:75-107 | a read or decode failure is noted, with no run, no log entry and the task file kept; otherwise run, one outcome entry, rotation (a failure is only noted), removal of the task file |
| Deployer.MissingLogStillRemovesTask | deployer.go:101-106 | when no active log exists the rotation fails, and the task file is removed all the same |
| ZeroDowntime.Latest | zero-downtime.go:57-70 | the chosen entry is a directory whose Info succeeded, and its time is later than the zero time |
| ZeroDowntime.LatestIsFirstMaximum | zero-downtime.go:57-70 | no candidate is later than the choice, and every candidate before it is strictly earlier, so the first of equal times wins |
| ZeroDowntime.LatestIsUnique | zero-downtime.go:57-70 | the first strictly-latest candidate is the one chosen |
| ZeroDowntime.NoDirectoryNoChoice | zero-downtime.go:57-72 | an empty listing, or one with no directories, chooses nothing |
| ZeroDowntime.FindLatest | zero-downtime.go:57-70 | the loop yields the path and time of Latest's choice, or "" and the zero time |
| ZeroDowntime.Relinked | zero-downtime.go:74-81 | the switch succeeds unless the link name is a non-empty directory, and then the link points at the target |
| ZeroDowntime.SwitchTo | zero-downtime.go:72-84 | a failed symlink returns "failed to create symlink" with nothing logged; otherwise nil and one "Switched to new deployment" entry |
| ZeroDowntime.SwitchDeployment | zero-downtime.go:38-87 | after the "switch initiated" entry: a listing error is returned with no link change; no choice returns nil with the link untouched; otherwise the link is switched and, on success, the switch is logged |
| ZeroDowntime.SwitchPointsAtLatest | zero-downtime.go:72-83 | after a successful switch, `current` points at a directory no candidate is later than |
| ZeroDowntime.Prepared | zero-downtime.go:19-34 | preparation only adds directories: every path that existed keeps its node |
| ZeroDowntime.PrepareDeployment | zero-downtime.go:19-34 | creates .deployments, then .deployments/<ts>, and stops at the first failure |
| ZeroDowntime.PreparedMakesBoth | zero-downtime.go:19-34 | on success both directories exist |
| ZeroDowntime.PreparedFailure | zero-downtime.go:19-34 | a non-directory at .deployments fails with no change; a file at the release name fails; free or existing directories succeed |
| ZeroDowntime.HealthCheck | zero-downtime.go:104-112 | always nil, after exactly two WriteLog calls |
| ZeroDowntime.HealthCheckAppendsTwo | zero-downtime.go:104-112 | when the log can be opened, exactly the two entries are appended in order |

## Left out

- The fsnotify watcher loop and its per-event goroutines (deployer.go:19-58): event-driven concurrency, and `queueDir` is not defined in these files. Only its file-name test is modelled (`Deployer.IsTaskEvent`).
- The goroutines and `sync.WaitGroup` around the two stream readers: the readers are modelled as one loop whose interleaving is an input schedule. Every order-preserving interleaving is reachable (`Streams.MergeReachesEveryInterleaving`).
- Deployment.ScriptRun: why a reader stops before the end of its stream is not modelled. Two causes exist: the pipe closed by `cmd.Wait`, and a line over `bufio.Scanner`'s 64 KiB limit, on which `Scan` stops and the error is not checked. The number of lines each reader copies is an input.
- Process execution: `exec.Command`, `os.Executable`, `os.Environ` and the child's exit status are inputs. A started process is recorded as its argument vector, directory, added environment and whether it is waited on.
- JSON: marshal and unmarshal are abstracted as a five-line record (`TaskFile.Encode`, `TaskFile.Decode`). Go's JSON text and its time encoding are not modelled.
- Time formatting: the two layouts and the clock are opaque functions. `Sync` and `Close` have no observable effect in the model.
- `ReloadService` (zero-downtime.go:90-101): it shells out to `systemctl`.
- Flag parsing in `main`: the parsed flag values are a parameter of `Launcher.Dispatch`, and `flag.ExitOnError` exits on a bad flag are not modelled.
- Path semantics: `filepath.IsAbs` is "starts with /" and `Join` is concatenation with "/". There is no cleaning of "..", "." or doubled slashes.
- Permission bits: only the `& 0111` test and the chmod to 0755 are modelled. Permission-denied errors (EACCES) from stat, open, rename or remove are not modelled; the chmod outcome is an input.
- Symbolic links are followed only at the last element of a path, and only one level: a link whose target is another link is reported as a loop (ELOOP). Links in the middle of a path are not followed.
- Launcher.SpawnEffect: `os.CreateTemp` tries up to 10000 random names. The model has one random name, an input; a name that is already taken stands for every attempt colliding and is reported as EEXIST.
- ZeroDowntime.PrepareDeployment: `os.MkdirAll` is modelled as creating the named directory only, without creating missing parents. A regular file further up the path is not looked at.
- Deployment.ReadAndLogOutput: a failed `WriteString` to an open log is not modelled. A write to a path that holds a file always succeeds.
- Concurrent tasks sharing one log directory: the model runs one task at a time.
- Deployment.FsAfter: the script's own effects on the filesystem are not modelled; a run leaves the filesystem as the program's own steps make it. `Deployment.PlanShape`, `Launcher.RunArchived` and `Launcher.QueueRunArchived` therefore hold for a script that leaves alone the active log, the rotated name and the task file. A script that appends to `$DEPLOYER_LOG_PATH/deployment.log`, removes it or makes a directory at the rotated name is outside them.
- Os.Host.Chdir: the working directory is recorded but never used to resolve a path. Every path is a key of the map, so a relative path resolves from one fixed root. Go resolves it against the working directory, which deployment.go:65 changes. The members below name the same file before and after the change.
- Launcher.RanTask: the task file it states removed is the one that was read. For a relative `--taskFile` and a run that changed directory, Go removes the same name under the project directory instead (main.go:111,138), so the read file stays. `Launcher.InternalRunDone` and `Launcher.Dispatch` inherit this.
- Deployer.ProcessDeploymentTask: a relative queue directory or a relative `LogPath` or `ScriptPath` is resolved from the fixed root, not against the working directory that deployer.go:126 changes. Task paths there are never validated.
- Os.Host.Say: `log.Printf` output is recorded without its "YYYY/MM/DD HH:MM:SS " prefix, and the clock reading it takes is not counted in `ticks`.
- Deployment.WriteLog: on a failed open, `ticks` grows by none where Go reads the clock once more for the `log.Printf` note.
- Deployer.RunTask: its `ticks` count is two to four readings short of Go's, one per `log.Printf` note (deployer.go:89-102). So the index of the reading that stamps the outcome entry and names the rotated log is lower than Go's; which timestamps appear is an input either way.
- Os.RenameStep: renaming a directory moves only its own key; paths under it keep the old prefix, where `os.Rename` moves the whole subtree. The program renames only the active log, which `Deployment.RotationMovesLog` and `Launcher.RunArchived` cover as a file or a link.

## Findings

| source | as written | input that shows it | evidently intended | confidence | as-written member | corrected member |
|---|---|---|---|---|---|---|
| deployment.go:114-123 | `cmd.Wait()` runs before `wg.Wait()`, and it closes the stdout and stderr pipes while the two readers may still be copying | a script that prints "a" and "b" on stdout and exits 0, whose stdout reader has copied only "a" when the pipe is closed | the readers are waited for (`wg.Wait()`) before `cmd.Wait()`, so every line reaches the log | medium, not executed | Deployment.WaitRaceDropsOutput | Deployment.JoinedCapturesEveryLine |
