/** main.go: the command-line entry point. `deploy` validates the three paths,
    writes the task to a temporary file and starts the program again in the
    background with `internal-run`; `internal-run` reads the task back, runs
    it, logs the outcome, rotates the log and removes the task file. */
module Launcher {
  import opened Paths
  import opened Os
  import opened LogFormat
  import opened Deployment
  import opened TaskFile
  import Deployer

  const Usage := "Usage: deploygo deploy --project={path} --deployScript={path} --logPath={path}"
  const FlagsRequired := "All flags are required: --project, --deployScript, --logPath"
  const TaskFileRequired := "Error: taskFile is required for internal-run"

  /** What the environment decides about a launch: the temporary directory
      and the random part of the temporary name, the outcome of the marshal,
      of the write to the temporary file and of the start of the background
      process, and the path of the running executable. */
  datatype LaunchEnv = LaunchEnv(
    tempDir: string,
    random: string,
    marshal: Status,
    write: Status,
    executable: Result<string>,
    start: Status)

  /** The task handleDeploy builds from two clock readings: the paths as
      given, the first reading in decimal as the task id, the second as
      the creation time. */
  function NewTask(project: string, script: string, logs: string, idClock: nat, created: nat): (t: Task)
    ensures t.projectPath == project && t.scriptPath == script && t.logPath == logs
    ensures IsDigits(t.taskId) && ParseDecimal(t.taskId) == idClock
    ensures t.createdAt == created
  {
    DecimalRoundTrip(idClock);
    Task(project, script, logs, Decimal(idClock), created)
  }

  /** `<exe> internal-run --taskFile <tmp>`, in the current directory with the
      inherited environment; started and not waited on. */
  function BackgroundCommand(exe: string, tmp: string, cwd: string): (c: Command)
    ensures |c.argv| == 4 && c.argv[0] == exe && c.argv[1] == "internal-run" && c.argv[3] == tmp
    ensures c.dir == cwd && c.env == [] && !c.waited
  {
    Command([exe, "internal-run", "--taskFile", tmp], cwd, [], false)
  }

  /** What one invocation of the program leaves besides the state it started
      from: its exit status, the filesystem, the number of clock readings it
      took, the lines it printed, the processes it started, and its working
      directory. */
  datatype Effect = Effect(code: int, fs: Fs, ticks: nat, said: seq<string>, started: seq<Command>, cwd: string)

  /** A step that fails prints one line and exits with status 1. */
  function Failed(fs: Fs, line: string, cwd: string): Effect {
    Effect(1, fs, 0, [line], [], cwd)
  }

  /** The host now holds what `o` describes, relative to the state the call
      started from. */
  twostate predicate Leaves(h: Host, o: Effect, code: int)
    reads h
  {
    code == o.code && h.fs == o.fs && h.ticks == old(h.ticks) + o.ticks &&
    h.console == old(h.console) + o.said && h.procs == old(h.procs) + o.started && h.cwd == o.cwd
  }

  /** Whether the steps after validation all succeed. */
  predicate SpawnSucceeds(fs: Fs, env: LaunchEnv) {
    CreateTempStep(fs, env.tempDir, env.random).status == Ok &&
    env.marshal == Ok && env.write == Ok && env.executable.Success? && env.start == Ok
  }

  /** The second half of handleDeploy (main.go:60-101): a fresh temporary
      file, the task written into it, and a background `internal-run` on it.
      A failed step is reported and ends the launch; the temporary file, once
      created, is left behind, empty when the marshal or the write failed. */
  function SpawnEffect(fs: Fs, task: Task, env: LaunchEnv, cwd: string): Effect {
    var tmp := TempName(env.tempDir, env.random);
    var made := CreateTempStep(fs, env.tempDir, env.random);
    var full := made.fs[tmp := File(TempFileMode, Encode(task))];
    if made.status.Err? then Failed(fs, "Error: Failed to create temporary task file: " + made.status.text, cwd)
    else if env.marshal.Err? then Failed(made.fs, "Error: Failed to marshal task: " + env.marshal.text, cwd)
    else if env.write.Err? then Failed(made.fs, "Error: Failed to write task file: " + env.write.text, cwd)
    else if env.executable.Failure? then Failed(full, "Error: Failed to get executable path: " + env.executable.error, cwd)
    else if env.start.Err? then Failed(full, "Error: Failed to start background process: " + env.start.text, cwd)
    else Effect(0, full, 0, ["Deployment started in background for task " + task.taskId],
                [BackgroundCommand(env.executable.value, tmp, cwd)], cwd)
  }

  /** Whether a launch gets past every check and every step. */
  predicate LaunchSucceeds(fs: Fs, project: string, script: string, logs: string, env: LaunchEnv) {
    project != "" && script != "" && logs != "" &&
    ValidatePaths(fs, project, script, logs).None? &&
    SpawnSucceeds(fs, env)
  }

  /** handleDeploy (main.go:39-102): the flag check and the validation, which
      read no clock; then two clock readings for the task, and the spawn. */
  function DeployEffect(fs: Fs, cwd: string, project: string, script: string, logs: string, env: LaunchEnv,
                        clock: nat -> nat, k: nat): Effect
  {
    if project == "" || script == "" || logs == "" then Failed(fs, FlagsRequired, cwd)
    else if ValidatePaths(fs, project, script, logs).Some? then
      Failed(fs, "Error: " + ValidatePaths(fs, project, script, logs).value, cwd)
    else SpawnEffect(fs, NewTask(project, script, logs, clock(k), clock(k + 1)), env, cwd).(ticks := 2)
  }

  /** A launch exits 0 exactly when it gets past every check and step, and
      only then starts a process; it prints one line and stays in its
      directory. A launch stopped by the flag check or the validation touches
      nothing else. */
  lemma DeployOutcome(fs: Fs, cwd: string, project: string, script: string, logs: string, env: LaunchEnv,
                      clock: nat -> nat, k: nat)
    ensures var o := DeployEffect(fs, cwd, project, script, logs, env, clock, k);
      (o.code == 0 || o.code == 1) &&
      (o.code == 0 <==> LaunchSucceeds(fs, project, script, logs, env)) &&
      (o.code != 0 ==> o.started == []) &&
      |o.said| == 1 && o.cwd == cwd
    ensures var o := DeployEffect(fs, cwd, project, script, logs, env, clock, k);
      project == "" || script == "" || logs == "" || ValidatePaths(fs, project, script, logs).Some? ==>
        o.fs == fs && o.ticks == 0
  {
    if project != "" && script != "" && logs != "" && ValidatePaths(fs, project, script, logs).None? {
      SpawnOutcome(fs, NewTask(project, script, logs, clock(k), clock(k + 1)), env, cwd);
    }
  }

  /** The spawn exits 0 exactly when every step succeeds, and starts a
      process only then; it prints one line. */
  lemma SpawnOutcome(fs: Fs, task: Task, env: LaunchEnv, cwd: string)
    ensures var o := SpawnEffect(fs, task, env, cwd);
      (o.code == 0 || o.code == 1) && (o.code == 0 <==> SpawnSucceeds(fs, env)) &&
      (o.code != 0 ==> o.started == []) && |o.said| == 1 && o.cwd == cwd
  {
  }

  /** A successful launch: the temporary file holds the task built from the
      two clock readings, and the one process started runs `internal-run` on
      that file from the current directory. */
  lemma DeployStartsInternalRun(fs: Fs, cwd: string, project: string, script: string, logs: string, env: LaunchEnv,
                                clock: nat -> nat, k: nat)
    requires LaunchSucceeds(fs, project, script, logs, env)
    ensures var o := DeployEffect(fs, cwd, project, script, logs, env, clock, k);
      var t := NewTask(project, script, logs, clock(k), clock(k + 1));
      var tmp := TempName(env.tempDir, env.random);
      o.code == 0 && o.ticks == 2 &&
      o.fs == fs[tmp := File(TempFileMode, Encode(t))] && tmp !in fs &&
      o.started == [BackgroundCommand(env.executable.value, tmp, cwd)] &&
      o.said == ["Deployment started in background for task " + t.taskId]
  {
  }

  /** A spawn that fails after the temporary file was created leaves the file
      behind and starts no process that would remove it. */
  lemma SpawnFailureLeavesTaskFile(fs: Fs, task: Task, env: LaunchEnv, cwd: string)
    requires CreateTempStep(fs, env.tempDir, env.random).status == Ok && !SpawnSucceeds(fs, env)
    ensures var o := SpawnEffect(fs, task, env, cwd);
      var tmp := TempName(env.tempDir, env.random);
      o.code == 1 && o.started == [] && tmp !in fs && tmp in o.fs &&
      o.fs[tmp].File? && o.fs[tmp].mode == TempFileMode
  {
  }

  /** The spawn (main.go:60-101), performed. */
  method Spawn(h: Host, task: Task, env: LaunchEnv) returns (code: int)
    modifies h`fs, h`console, h`procs
    ensures Leaves(h, SpawnEffect(old(h.fs), task, env, old(h.cwd)), code)
  {
    var made := h.CreateTemp(env.tempDir, env.random);
    if made.Err? {
      h.Say("Error: Failed to create temporary task file: " + made.text);
      return 1;
    }
    var tmp := TempName(env.tempDir, env.random);
    if env.marshal.Err? {
      h.Say("Error: Failed to marshal task: " + env.marshal.text);
      return 1;
    }
    assert h.fs[tmp] == File(TempFileMode, []);
    var wrote := h.Write(tmp, Encode(task), env.write);
    assert [] + Encode(task) == Encode(task);
    if wrote.Err? {
      h.Say("Error: Failed to write task file: " + wrote.text);
      return 1;
    }
    if env.executable.Failure? {
      h.Say("Error: Failed to get executable path: " + env.executable.error);
      return 1;
    }
    if env.start.Err? {
      h.Say("Error: Failed to start background process: " + env.start.text);
      return 1;
    }
    h.Start(BackgroundCommand(env.executable.value, tmp, h.cwd));
    h.Say("Deployment started in background for task " + task.taskId);
    return 0;
  }

  /** handleDeploy (main.go:39-102), performed. */
  method HandleDeploy(h: Host, project: string, script: string, logs: string, env: LaunchEnv) returns (code: int)
    modifies h`fs, h`ticks, h`console, h`procs
    ensures Leaves(h, DeployEffect(old(h.fs), old(h.cwd), project, script, logs, env, h.clock, old(h.ticks)), code)
  {
    if project == "" || script == "" || logs == "" {
      h.Say(FlagsRequired);
      return 1;
    }
    var invalid := ValidatePaths(h.fs, project, script, logs);
    if invalid.Some? {
      h.Say("Error: " + invalid.value);
      return 1;
    }
    var idClock := h.Now();
    var created := h.Now();
    var task := NewTask(project, script, logs, idClock, created);
    code := Spawn(h, task, env);
  }

  /** A run that truncated the active log leaves it open for the outcome
      entry, which lands right after the run's own entries. */
  lemma OutcomeFollowsRun(fs: Fs, task: Task, e: Execution, clock: nat -> nat, layout: nat -> string, k: nat, line: string)
    requires e.truncated
    ensures var fsA := FsAfter(fs, task, e, clock, layout, k);
      OpenStatus(fsA, task.logPath, ActiveLogName) == Ok &&
      Resolve(fsA, ActiveLog(task.logPath)) == Resolve(fs, ActiveLog(task.logPath)) &&
      LinesOf(fsA, ActiveLog(task.logPath)) == Render(clock, layout, k, e.items) &&
      LinesOf(LogWritten(fsA, task.logPath, line), ActiveLog(task.logPath)) ==
        Render(clock, layout, k, e.items) + [line]
  {
    var log := ActiveLog(task.logPath);
    var fs1 := Opened(fs, log, true);
    var fs2 := if e.chmod then Chmodded(fs1, task.scriptPath, ExecutableMode) else fs1;
    assert IsFile(fs2, log) && Resolve(fs2, log) == Resolve(fs, log);
    var fsA := FsAfter(fs, task, e, clock, layout, k);
    assert fsA == SetLines(fs2, log, Render(clock, layout, k, e.items));
    SetLinesKeepsShape(fs2, log, Render(clock, layout, k, e.items), log);
    LogAppendedKeepsHistory(fsA, task.logPath, line);
  }

  /** The filesystem once the outcome of a run is logged, the log rotated and
      the task file removed, the clock standing at k after the run. Only a
      directory with entries under the task file's name is left in place. */
  function Finished(fs: Fs, k: nat, task: Task, result: Status, clock: nat -> nat, layout: nat -> string,
                    compact: nat -> string, taskFile: string): (r: Fs)
    ensures taskFile in r ==> r[taskFile].Dir?
  {
    var fsB := LogWritten(fs, task.logPath, Entry(Stamp(clock, layout, k), OutcomeEntry(result)));
    var kB := k + if CanLog(fs, task.logPath) then 1 else 0;
    RemoveStep(Rotation(fsB, task.logPath, compact(clock(kB))).fs, taskFile).fs
  }

  /** The log of `dir` has been moved to `rotated`, which leads to a file
      holding `lines`. */
  predicate Archived(fs: Fs, dir: string, rotated: string, lines: seq<string>) {
    ActiveLog(dir) !in fs && rotated in fs && IsFile(fs, rotated) && LinesOf(fs, rotated) == lines
  }

  /** The file the active log of `dir` leads to outlives the rotation and the
      removal of the task file: it is the active log itself, or the target of
      a link there that is neither the rotated name nor the task file. */
  predicate TargetSurvives(fs: Fs, dir: string, rotated: string, taskFile: string) {
    var t := Resolve(fs, ActiveLog(dir));
    t == ActiveLog(dir) || (t != rotated && t != taskFile)
  }

  /** The life of a task's log. After a run that truncated the active log
      (e is the run's Plan), the outcome entry follows the run's own entries,
      the rotation moves the whole log to its timestamped name, and the active
      name is free for the next task; removing the task file leaves the
      rotated log alone. */
  lemma {:induction false} RunArchived(fs: Fs, task: Task, e: Execution, clock: nat -> nat, layout: nat -> string,
                    compact: nat -> string, k: nat, taskFile: string)
    requires e.truncated
    requires var ts := compact(clock(k + Ticks(e.items) + 1));
      !(RotatedLog(task.logPath, ts) in fs && fs[RotatedLog(task.logPath, ts)].Dir?) &&
      taskFile != RotatedLog(task.logPath, ts) &&
      TargetSurvives(fs, task.logPath, RotatedLog(task.logPath, ts), taskFile)
    ensures var kA := k + Ticks(e.items);
      var rotated := RotatedLog(task.logPath, compact(clock(kA + 1)));
      var final := Finished(FsAfter(fs, task, e, clock, layout, k), kA, task, e.result, clock, layout, compact, taskFile);
      Archived(final, task.logPath, rotated,
        Render(clock, layout, k, e.items) + [Entry(Stamp(clock, layout, kA), OutcomeEntry(e.result))])
  {
    var kA := k + Ticks(e.items);
    RunReadiesArchive(fs, task, e, clock, layout, k, RotatedLog(task.logPath, compact(clock(kA + 1))), taskFile);
    FinishedArchives(FsAfter(fs, task, e, clock, layout, k), kA, task, e.result, clock, layout, compact, taskFile);
  }

  /** What FinishedArchives needs, carried from before a run to after it. */
  lemma RunReadiesArchive(fs: Fs, task: Task, e: Execution, clock: nat -> nat, layout: nat -> string, k: nat,
                          rotated: string, taskFile: string)
    requires e.truncated
    requires !(rotated in fs && fs[rotated].Dir?)
    requires TargetSurvives(fs, task.logPath, rotated, taskFile)
    ensures var fsA := FsAfter(fs, task, e, clock, layout, k);
      CanLog(fsA, task.logPath) && !(rotated in fsA && fsA[rotated].Dir?) &&
      TargetSurvives(fsA, task.logPath, rotated, taskFile) &&
      LinesOf(fsA, ActiveLog(task.logPath)) == Render(clock, layout, k, e.items)
  {
    OutcomeFollowsRun(fs, task, e, clock, layout, k, "");
    FsAfterMakesNoDirectory(fs, task, e, clock, layout, k, rotated);
  }

  /** Finished, from a state whose active log can be opened. */
  lemma FinishedArchives(fsA: Fs, kA: nat, task: Task, result: Status, clock: nat -> nat, layout: nat -> string,
                         compact: nat -> string, taskFile: string)
    requires CanLog(fsA, task.logPath)
    requires var rotated := RotatedLog(task.logPath, compact(clock(kA + 1)));
      !(rotated in fsA && fsA[rotated].Dir?) && taskFile != rotated &&
      TargetSurvives(fsA, task.logPath, rotated, taskFile)
    ensures Archived(Finished(fsA, kA, task, result, clock, layout, compact, taskFile), task.logPath,
      RotatedLog(task.logPath, compact(clock(kA + 1))),
      LinesOf(fsA, ActiveLog(task.logPath)) + [Entry(Stamp(clock, layout, kA), OutcomeEntry(result))])
  {
    ArchiveAfterRun(fsA, task.logPath, Entry(Stamp(clock, layout, kA), OutcomeEntry(result)), kA, clock, compact, taskFile);
  }

  /** Whenever the log opens, the queue runner's wrap-up (deployer.go:92-106)
      leaves the same filesystem as handleInternalRun's (main.go:126-138):
      the rotation's missing existence check only matters without a log. */
  lemma {:induction false} QueueWrapUpFinishes(fs: Fs, k: nat, task: Task, result: Status, clock: nat -> nat,
                                               layout: nat -> string, compact: nat -> string, taskFile: string)
    requires CanLog(fs, task.logPath)
    ensures Deployer.Wrapped(fs, k, task, result, clock, layout, compact, taskFile).fs ==
      Finished(fs, k, task, result, clock, layout, compact, taskFile)
  {
    var fsB := LogWritten(fs, task.logPath, Entry(Stamp(clock, layout, k), OutcomeEntry(result)));
    LogWrittenStaysOpen(fs, task.logPath, Entry(Stamp(clock, layout, k), OutcomeEntry(result)));
    Deployer.RotationWithoutCheck(fsB, task.logPath, compact(clock(k + 1)));
  }

  /** FinishedArchives for the queue runner's wrap-up. */
  lemma {:induction false} QueueFinishedArchives(fsA: Fs, kA: nat, task: Task, result: Status, clock: nat -> nat, layout: nat -> string,
                              compact: nat -> string, taskFile: string, lines: seq<string>)
    requires CanLog(fsA, task.logPath) && LinesOf(fsA, ActiveLog(task.logPath)) == lines
    requires var rotated := RotatedLog(task.logPath, compact(clock(kA + 1)));
      !(rotated in fsA && fsA[rotated].Dir?) && taskFile != rotated &&
      TargetSurvives(fsA, task.logPath, rotated, taskFile)
    ensures Archived(Deployer.Wrapped(fsA, kA, task, result, clock, layout, compact, taskFile).fs, task.logPath,
      RotatedLog(task.logPath, compact(clock(kA + 1))),
      lines + [Entry(Stamp(clock, layout, kA), OutcomeEntry(result))])
  {
    FinishedArchives(fsA, kA, task, result, clock, layout, compact, taskFile);
    QueueWrapUpFinishes(fsA, kA, task, result, clock, layout, compact, taskFile);
  }

  /** RunArchived for the queue runner (deployer.go:89-106): after a
      truncating run the rotated file holds the run's entries and then the
      one outcome entry, and the active name is free for the next task. */
  lemma {:induction false} QueueRunArchived(fs: Fs, task: Task, e: Execution, clock: nat -> nat, layout: nat -> string,
                         compact: nat -> string, k: nat, taskFile: string)
    requires e.truncated
    requires var ts := compact(clock(k + Ticks(e.items) + 1));
      !(RotatedLog(task.logPath, ts) in fs && fs[RotatedLog(task.logPath, ts)].Dir?) &&
      taskFile != RotatedLog(task.logPath, ts) &&
      TargetSurvives(fs, task.logPath, RotatedLog(task.logPath, ts), taskFile)
    ensures var kA := k + Ticks(e.items);
      var rotated := RotatedLog(task.logPath, compact(clock(kA + 1)));
      Archived(Deployer.Wrapped(FsAfter(fs, task, e, clock, layout, k), kA, task, e.result, clock, layout, compact, taskFile).fs,
        task.logPath, rotated,
        Render(clock, layout, k, e.items) + [Entry(Stamp(clock, layout, kA), OutcomeEntry(e.result))])
  {
    RunArchived(fs, task, e, clock, layout, compact, k, taskFile);
    QueueRunFinishes(fs, task, e, clock, layout, compact, k, taskFile);
  }

  /** After a truncating run, the queue runner's wrap-up and
      handleInternalRun's leave the same filesystem. */
  lemma {:induction false} QueueRunFinishes(fs: Fs, task: Task, e: Execution, clock: nat -> nat, layout: nat -> string,
                                            compact: nat -> string, k: nat, taskFile: string)
    requires e.truncated
    ensures Deployer.Wrapped(FsAfter(fs, task, e, clock, layout, k), k + Ticks(e.items), task, e.result, clock, layout, compact, taskFile).fs ==
      Finished(FsAfter(fs, task, e, clock, layout, k), k + Ticks(e.items), task, e.result, clock, layout, compact, taskFile)
  {
    OutcomeFollowsRun(fs, task, e, clock, layout, k, "");
    QueueWrapUpFinishes(FsAfter(fs, task, e, clock, layout, k), k + Ticks(e.items), task, e.result, clock, layout, compact, taskFile);
  }

  /** A run creates no directory: any directory after it was there before. */
  lemma FsAfterMakesNoDirectory(fs: Fs, task: Task, e: Execution, clock: nat -> nat, layout: nat -> string, k: nat, q: string)
    ensures q in FsAfter(fs, task, e, clock, layout, k) && FsAfter(fs, task, e, clock, layout, k)[q].Dir? ==>
      q in fs && fs[q].Dir?
  {
    if e.truncated {
      var log := ActiveLog(task.logPath);
      var fs1 := Opened(fs, log, true);
      var fs2 := if e.chmod then Chmodded(fs1, task.scriptPath, ExecutableMode) else fs1;
      assert FsAfter(fs, task, e, clock, layout, k) == SetLines(fs2, log, Render(clock, layout, k, e.items));
      if q in fs2 && q != Resolve(fs, log) {
        assert fs1[q] == fs[q];
      }
    }
  }

  /** Logging the outcome, rotating and removing the task file, from a state
      whose active log can be opened. */
  lemma ArchiveAfterRun(fsA: Fs, dir: string, line: string, kA: nat, clock: nat -> nat, compact: nat -> string, taskFile: string)
    requires CanLog(fsA, dir)
    requires var rotated := RotatedLog(dir, compact(clock(kA + 1)));
      !(rotated in fsA && fsA[rotated].Dir?) && taskFile != rotated &&
      TargetSurvives(fsA, dir, rotated, taskFile)
    ensures var rotated := RotatedLog(dir, compact(clock(kA + 1)));
      var fsB := LogWritten(fsA, dir, line);
      var final := RemoveStep(Rotation(fsB, dir, compact(clock(kA + 1))).fs, taskFile).fs;
      Archived(final, dir, rotated, LinesOf(fsA, ActiveLog(dir)) + [line])
  {
    var log := ActiveLog(dir);
    var ts := compact(clock(kA + 1));
    var rotated := RotatedLog(dir, ts);
    var t := Resolve(fsA, log);
    var fsB := LogWritten(fsA, dir, line);
    LogAppendedKeepsHistory(fsA, dir, line);
    assert log in fsB && IsFile(fsB, log);
    assert rotated in fsB ==> fsB[rotated] == fsA[rotated];
    RotationMovesLog(fsB, dir, ts);
    var fsC := Rotation(fsB, dir, ts).fs;
    if t != log {
      assert fsB[log] == Link(t) && t != log;
      assert fsC[t] == fsB[t];
    }
  }

  /** The tail of handleInternalRun after the run (main.go:126-138): the
      outcome entry, the rotation (its error ignored) and the removal of the
      task file (its error ignored). Only a failed open of the log prints. */
  method FinishTask(h: Host, task: Task, result: Status, taskFile: string)
    modifies h`fs, h`ticks, h`console
    ensures h.fs == Finished(old(h.fs), old(h.ticks), task, result, h.clock, h.layout, h.compact, taskFile)
    ensures h.ticks == old(h.ticks) + (if CanLog(old(h.fs), task.logPath) then 1 else 0) + 1
    ensures h.console == old(h.console) + WriteLogNote(old(h.fs), task.logPath)
  {
    WriteLog(h, task.logPath, OutcomeEntry(result));
    var rotated := RotateLog(h, task.logPath);
    var removed := h.Remove(taskFile);
  }

  /** The line handleInternalRun prints when it cannot read its task back
      ("" when it can). */
  function ReadBackError(fs: Fs, taskFile: string): string {
    if taskFile == "" then TaskFileRequired
    else if ReadFile(fs, taskFile).Failure? then "Failed to read task file: " + ReadFile(fs, taskFile).error
    else if Decode(ReadFile(fs, taskFile).value).Failure? then
      "Failed to unmarshal task: " + Decode(ReadFile(fs, taskFile).value).error
    else ""
  }

  /** A task file below a regular file cannot be read back because a
      directory on the way is not one (main.go:111-116). */
  lemma ReadBackBelowFile(fs: Fs, taskFile: string)
    requires taskFile != "" && taskFile !in fs && UnderFile(fs, taskFile)
    ensures ReadBackError(fs, taskFile) == "Failed to read task file: " + PathError("open", taskFile, ENOTDIR)
  {
    MissingPathReasons(fs, taskFile, "");
  }

  /** For instance, with a regular file at /a, `--taskFile /a/t` prints
      "Failed to read task file: open /a/t: not a directory". */
  lemma ReadBackBelowFileExample(m: Mode, lines: seq<string>)
    ensures ReadBackError(map["/a" := File(m, lines)], "/a/t") ==
      "Failed to read task file: open /a/t: not a directory"
  {
    var fs := map["/a" := File(m, lines)];
    assert "/a/t"[..3] == "/a/" && "/a/"[..2] == "/a";
    assert Parent("/a/t") == "/a";
    ReadBackBelowFile(fs, "/a/t");
  }

  /** The task ran (Plan), one outcome entry was appended, the log was
      rotated and the task file removed: the run's clock readings first, then
      one for the outcome entry when the log opens, then one for the
      rotation; only a failed open of the log prints. */
  twostate predicate RanTask(h: Host, task: Task, run: ScriptRun, taskFile: string)
    reads h
  {
    var e := Plan(old(h.fs), task, run);
    var fsA := FsAfter(old(h.fs), task, e, h.clock, h.layout, old(h.ticks));
    var kA := old(h.ticks) + Ticks(e.items);
    h.fs == Finished(fsA, kA, task, e.result, h.clock, h.layout, h.compact, taskFile) &&
    h.ticks == kA + (if CanLog(fsA, task.logPath) then 1 else 0) + 1 &&
    h.console == old(h.console) + WriteLogNote(fsA, task.logPath) &&
    h.procs == old(h.procs) + (if e.started then [ScriptCommand(task)] else []) &&
    h.cwd == (if e.chdir then task.projectPath else old(h.cwd))
  }

  /** handleInternalRun's outcome (main.go:104-139). A missing task file
      name, an unreadable task file or a malformed record ends the process
      with status 1 after one error line, touching nothing else, so the task
      file stays; otherwise the task runs to the end and the status is 0. */
  twostate predicate InternalRunDone(h: Host, taskFile: string, run: ScriptRun, code: int)
    reads h
  {
    (code == 0 || code == 1) &&
    (code == 1 <==>
      taskFile == "" || ReadFile(old(h.fs), taskFile).Failure? || Decode(ReadFile(old(h.fs), taskFile).value).Failure?) &&
    (code == 1 ==>
      h.fs == old(h.fs) && h.ticks == old(h.ticks) && h.procs == old(h.procs) && h.cwd == old(h.cwd) &&
      h.console == old(h.console) + [ReadBackError(old(h.fs), taskFile)]) &&
    (code == 0 ==> RanTask(h, Decode(ReadFile(old(h.fs), taskFile).value).value, run, taskFile))
  }

  /** The run, the outcome entry, the rotation and the removal, performed. */
  method RunAndClean(h: Host, task: Task, run: ScriptRun, taskFile: string)
    modifies h`fs, h`ticks, h`cwd, h`console, h`procs
    ensures RanTask(h, task, run, taskFile)
  {
    ghost var e := Plan(h.fs, task, run);
    var r := ExecuteDeployment(h, task, run);
    ghost var fsA, kA := h.fs, h.ticks;
    FinishTask(h, task, r, taskFile);
    assert h.fs == Finished(fsA, kA, task, e.result, h.clock, h.layout, h.compact, taskFile);
  }

  /** handleInternalRun (main.go:104-139), performed. */
  method HandleInternalRun(h: Host, taskFile: string, run: ScriptRun) returns (code: int)
    modifies h`fs, h`ticks, h`cwd, h`console, h`procs
    ensures InternalRunDone(h, taskFile, run, code)
  {
    if taskFile == "" {
      h.Say(TaskFileRequired);
      return 1;
    }
    var data := ReadFile(h.fs, taskFile);
    if data.Failure? {
      h.Say("Failed to read task file: " + data.error);
      return 1;
    }
    var decoded := Decode(data.value);
    if decoded.Failure? {
      h.Say("Failed to unmarshal task: " + decoded.error);
      return 1;
    }
    RunAndClean(h, decoded.value, run, taskFile);
    return 0;
  }

  /** The values the two flag sets hold after parsing the arguments that
      follow the subcommand; a flag that is not given keeps its default "". */
  datatype Flags = Flags(project: string, deployScript: string, logPath: string, taskFile: string)

  /** main (main.go:12-37): the usage line when no subcommand is given, an
      error for an unknown one, and otherwise exactly what the handler of the
      subcommand does. Returns the exit status. */
  method Dispatch(h: Host, args: seq<string>, flags: Flags, env: LaunchEnv, run: ScriptRun) returns (code: int)
    modifies h`fs, h`ticks, h`cwd, h`console, h`procs
    ensures |args| < 2 ==> Leaves(h, Failed(old(h.fs), Usage, old(h.cwd)), code)
    ensures |args| >= 2 && args[1] != "deploy" && args[1] != "internal-run" ==>
      Leaves(h, Failed(old(h.fs), "Unknown command: " + args[1], old(h.cwd)), code)
    ensures |args| >= 2 && args[1] == "deploy" ==>
      Leaves(h, DeployEffect(old(h.fs), old(h.cwd), flags.project, flags.deployScript, flags.logPath, env,
                             h.clock, old(h.ticks)), code)
    ensures |args| >= 2 && args[1] == "internal-run" ==> InternalRunDone(h, flags.taskFile, run, code)
  {
    if |args| < 2 {
      h.Say(Usage);
      return 1;
    }
    if args[1] == "deploy" {
      code := HandleDeploy(h, flags.project, flags.deployScript, flags.logPath, env);
    } else if args[1] == "internal-run" {
      code := HandleInternalRun(h, flags.taskFile, run);
    } else {
      h.Say("Unknown command: " + args[1]);
      return 1;
    }
  }
}
