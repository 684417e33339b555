/** deployer.go: the queue runner. It picks the task files out of the queue
    directory, and runs each one: read the record, run the deployment, log
    the outcome, rotate the log without first looking for it, and remove the
    task file. Its deployment run and log writer are the same code as
    deployment.go's and are modelled by Deployment's members; its rotation is
    its own. */
module Deployer {
  import opened Paths
  import opened Os
  import opened LogFormat
  import opened Deployment
  import opened TaskFile

  const TaskPrefix := "task_"
  const TaskSuffix := ".json"

  // ---------------------------------------------------------------------
  // Which queue entries are tasks
  // ---------------------------------------------------------------------

  /** A directory entry name processExistingFiles treats as a task. The
      prefix and the suffix cannot overlap, so a task name is at least
      "task_.json". */
  function IsTaskFileName(name: string): (b: bool)
    ensures b ==> |name| >= |TaskPrefix| + |TaskSuffix|
  {
    if HasPrefix(name, TaskPrefix) && HasSuffix(name, TaskSuffix) then
      var start := |name| - |TaskSuffix|;
      assert name[4] == '_';
      assert forall j :: start <= j < |name| ==> name[j] == name[start..][j - start] != '_';
      true
    else false
  }

  /** The watcher's test of a created path: the prefix is looked for in the
      base name, the suffix in the whole path. Whatever it accepts, the
      listing test accepts the base name of. */
  function IsTaskEvent(path: string): (b: bool)
    ensures b ==> IsTaskFileName(Base(path))
  {
    var base := Base(path);
    if HasPrefix(base, TaskPrefix) && HasSuffix(path, TaskSuffix) then
      BaseEndsPath(path);
      assert base[|base| - |TaskSuffix|..] == path[|path| - |TaskSuffix|..];
      true
    else false
  }

  /** The two tests agree: an entry of the queue directory is a task for the
      watcher exactly when it is one for the initial scan. */
  lemma EventAgreesWithListing(dir: string, name: string)
    requires '/' !in name
    ensures IsTaskEvent(Join(dir, name)) <==> IsTaskFileName(name)
  {
    BaseOfJoin(dir, name);
    if HasPrefix(name, TaskPrefix) {
      JoinSuffix(dir, name, TaskSuffix);
    }
  }

  /** A suffix no longer than the joined name is a suffix of the path exactly
      when it is one of the name. */
  lemma JoinSuffix(dir: string, name: string, suf: string)
    requires |suf| <= |name|
    ensures HasSuffix(Join(dir, name), suf) <==> HasSuffix(name, suf)
  {
    var p := Join(dir, name);
    assert p[|p| - |suf|..] == name[|name| - |suf|..];
  }

  /** The temporary files handleDeploy writes are never picked up as queue
      tasks: their names start with "deploy_". */
  lemma TempFileIsNotATask(dir: string, random: string)
    requires '/' !in random
    ensures !IsTaskEvent(TempName(dir, random))
    ensures !IsTaskFileName("deploy_task_" + random + ".json")
  {
    var name := "deploy_task_" + random + ".json";
    assert '/' !in name by {
      assert forall i :: 0 <= i < |name| ==> name[i] != '/' by {
        forall i | 0 <= i < |name|
          ensures name[i] != '/'
        {
          if 12 <= i < 12 + |random| {
            assert name[i] == random[i - 12];
          }
        }
      }
    }
    BaseOfJoin(dir, name);
    assert name[0] != TaskPrefix[0];
  }

  /** The paths processExistingFiles dispatches for a listing, in listing
      order. */
  function TaskPaths(dir: string, names: seq<string>): (r: seq<string>)
    ensures |r| <= |names|
    ensures forall i :: 0 <= i < |r| ==> HasSuffix(r[i], TaskSuffix)
    decreases |names|
  {
    if names == [] then []
    else
      var last := names[|names| - 1];
      if IsTaskFileName(last) then
        JoinSuffix(dir, last, TaskSuffix);
        TaskPaths(dir, names[..|names| - 1]) + [Join(dir, last)]
      else TaskPaths(dir, names[..|names| - 1])
  }

  lemma JoinInjective(dir: string, a: string, b: string)
    requires Join(dir, a) == Join(dir, b)
    ensures a == b
  {
    assert a == Join(dir, a)[|dir| + 1..];
  }

  /** Each task entry of the listing is dispatched once per occurrence (once,
      as a directory lists each name once), and no other entry is. */
  lemma {:induction false} TaskPathsExactlyOnce(dir: string, names: seq<string>, n: string)
    ensures multiset(TaskPaths(dir, names))[Join(dir, n)] == if IsTaskFileName(n) then multiset(names)[n] else 0
    decreases |names|
  {
    if names != [] {
      var init, last := names[..|names| - 1], names[|names| - 1];
      TaskPathsExactlyOnce(dir, init, n);
      assert names == init + [last];
      if last != n && IsTaskFileName(last) {
        if Join(dir, last) == Join(dir, n) {
          JoinInjective(dir, last, n);
        }
      }
    }
  }

  /** Everything dispatched is the joined path of a task entry of the listing. */
  lemma {:induction false} TaskPathsFromListing(dir: string, names: seq<string>, p: string)
    requires p in TaskPaths(dir, names)
    ensures exists n :: n in names && IsTaskFileName(n) && p == Join(dir, n)
    decreases |names|
  {
    var init, last := names[..|names| - 1], names[|names| - 1];
    if p in TaskPaths(dir, init) {
      TaskPathsFromListing(dir, init, p);
      var n :| n in init && IsTaskFileName(n) && p == Join(dir, n);
      assert n in names;
    } else {
      assert IsTaskFileName(last) && p == Join(dir, last);
    }
  }

  /** processExistingFiles (deployer.go:60-73): on a listing of the queue
      directory, start one task run per task entry; on a listing error, log
      it and start nothing. The runs are returned as the paths they are
      started on. */
  method ProcessExistingFiles(h: Host, queueDir: string, listing: Result<seq<string>>) returns (dispatched: seq<string>)
    modifies h`console
    ensures listing.Failure? ==>
      dispatched == [] && h.console == old(h.console) + ["Failed to read queue directory: " + listing.error]
    ensures listing.Success? ==> dispatched == TaskPaths(queueDir, listing.value) && h.console == old(h.console)
  {
    if listing.Failure? {
      h.Say("Failed to read queue directory: " + listing.error);
      return [];
    }
    var files := listing.value;
    dispatched := [];
    var i := 0;
    while i < |files|
      invariant 0 <= i <= |files|
      invariant dispatched == TaskPaths(queueDir, files[..i])
    {
      assert files[..i + 1][..i] == files[..i];
      if IsTaskFileName(files[i]) {
        dispatched := dispatched + [Join(queueDir, files[i])];
      }
      i := i + 1;
    }
    assert files[..i] == files;
  }

  // ---------------------------------------------------------------------
  // Rotation without an existence check
  // ---------------------------------------------------------------------

  /** rotateLog's effect once the compact timestamp `ts` is read: an
      unconditional rename of the active log. */
  function Rotation(fs: Fs, dir: string, ts: string): (r: Step)
    ensures ActiveLog(dir) !in fs ==> r.status.Err? && r.fs == fs
    ensures r.status == Ok ==> RotatedLog(dir, ts) in r.fs && r.fs[RotatedLog(dir, ts)] == fs[ActiveLog(dir)]
  {
    RenameStep(fs, ActiveLog(dir), RotatedLog(dir, ts))
  }

  /** With no active log, this rotation reports an error where deployment.go's
      reports none (unless a regular file stands where a directory on the way
      should be, which fails its stat too); whenever the stat finds something,
      the two agree. */
  lemma RotationWithoutCheck(fs: Fs, dir: string, ts: string)
    ensures ActiveLog(dir) !in fs ==>
      Rotation(fs, dir, ts).status.Err? && Rotation(fs, dir, ts).fs == fs
    ensures ActiveLog(dir) !in fs && !UnderFile(fs, ActiveLog(dir)) ==>
      Deployment.Rotation(fs, dir, ts) == Step(Ok, fs)
    ensures !Stat(fs, ActiveLog(dir)).NotExist? ==> Rotation(fs, dir, ts) == Deployment.Rotation(fs, dir, ts)
  {
  }

  /** A log directory below a regular file: the rename fails because a
      directory on the way is not one, and nothing changes. */
  lemma RotationBelowFile(fs: Fs, dir: string, ts: string)
    requires ActiveLog(dir) !in fs && UnderFile(fs, ActiveLog(dir))
    ensures Rotation(fs, dir, ts) == Step(Err(LinkError("rename", ActiveLog(dir), RotatedLog(dir, ts), ENOTDIR)), fs)
  {
    MissingPathReasons(fs, ActiveLog(dir), RotatedLog(dir, ts));
  }

  /** rotateLog (deployer.go:232-237). */
  method RotateLog(h: Host, logDir: string) returns (r: Status)
    modifies h`fs, h`ticks
    ensures h.ticks == old(h.ticks) + 1
    ensures r == Rotation(old(h.fs), logDir, h.compact(h.clock(old(h.ticks)))).status
    ensures h.fs == Rotation(old(h.fs), logDir, h.compact(h.clock(old(h.ticks)))).fs
  {
    var activeLog := ActiveLog(logDir);
    var t := h.Now();
    var newLog := RotatedLog(logDir, h.compact(t));
    r := h.Rename(activeLog, newLog);
  }

  // ---------------------------------------------------------------------
  // One task
  // ---------------------------------------------------------------------

  /** What processDeploymentTask does once the run is over: the filesystem it
      leaves, the status of the rotation, and the notes it writes to the
      program's own log. */
  datatype Wrapup = Wrapup(fs: Fs, rotation: Status, notes: seq<string>)

  /** The note logged for the run's outcome. */
  function OutcomeNote(task: Task, result: Status): string {
    if result.Err? then "Deployment failed for task " + task.taskId + ": " + result.text
    else "Deployment completed successfully for task " + task.taskId
  }

  /** The note logged for a failed rotation. */
  function RotationNote(r: Status): seq<string> {
    if r.Err? then ["Failed to rotate log file: " + r.text] else []
  }

  /** The wrap-up from the state the run leaves, the clock standing at k. */
  function Wrapped(fs: Fs, k: nat, task: Task, result: Status, clock: nat -> nat, layout: nat -> string,
                   compact: nat -> string, taskFile: string): (w: Wrapup)
    ensures w.rotation.Err? ==> |w.notes| >= 1 && w.notes[|w.notes| - 1] == "Failed to rotate log file: " + w.rotation.text
    ensures taskFile in w.fs ==> w.fs[taskFile].Dir?
  {
    var dir := task.logPath;
    var logged := LogWritten(fs, dir, Entry(Stamp(clock, layout, k), OutcomeEntry(result)));
    var kB := k + if CanLog(fs, dir) then 1 else 0;
    var rot := Rotation(logged, dir, compact(clock(kB)));
    Wrapup(RemoveStep(rot.fs, taskFile).fs, rot.status, [OutcomeNote(task, result)] + WriteLogNote(fs, dir) + RotationNote(rot.status))
  }

  /** deployer.go:101-106: rotate, log a rotation failure, remove the task file. */
  method RotateAndRemove(h: Host, logDir: string, taskFile: string)
    modifies h`fs, h`ticks, h`console
    ensures var rot := Rotation(old(h.fs), logDir, h.compact(h.clock(old(h.ticks))));
      h.fs == RemoveStep(rot.fs, taskFile).fs && h.console == old(h.console) + RotationNote(rot.status)
    ensures h.ticks == old(h.ticks) + 1
  {
    var rotated := RotateLog(h, logDir);
    if rotated.Err? {
      h.Say("Failed to rotate log file: " + rotated.text);
    }
    var removed := h.Remove(taskFile);
  }

  /** deployer.go:92-98: note the outcome, then append its entry. */
  method LogOutcome(h: Host, task: Task, result: Status)
    modifies h`fs, h`ticks, h`console
    ensures h.fs == LogWritten(old(h.fs), task.logPath, Entry(Stamp(h.clock, h.layout, old(h.ticks)), OutcomeEntry(result)))
    ensures h.ticks == old(h.ticks) + if CanLog(old(h.fs), task.logPath) then 1 else 0
    ensures h.console == old(h.console) + ([OutcomeNote(task, result)] + WriteLogNote(old(h.fs), task.logPath))
  {
    h.Say(OutcomeNote(task, result));
    WriteLog(h, task.logPath, OutcomeEntry(result));
  }

  /** The tail of processDeploymentTask after the run (deployer.go:92-106). */
  method WrapUp(h: Host, task: Task, result: Status, taskFile: string)
    modifies h`fs, h`ticks, h`console
    ensures var w := Wrapped(old(h.fs), old(h.ticks), task, result, h.clock, h.layout, h.compact, taskFile);
      h.fs == w.fs && h.console == old(h.console) + w.notes
    ensures h.ticks == old(h.ticks) + (if CanLog(old(h.fs), task.logPath) then 1 else 0) + 1
  {
    ghost var fs0, k0, c0 := h.fs, h.ticks, h.console;
    ghost var logged := LogWritten(fs0, task.logPath, Entry(Stamp(h.clock, h.layout, k0), OutcomeEntry(result)));
    ghost var kB := k0 + if CanLog(fs0, task.logPath) then 1 else 0;
    ghost var rot := Rotation(logged, task.logPath, h.compact(h.clock(kB)));
    ghost var w := Wrapped(fs0, k0, task, result, h.clock, h.layout, h.compact, taskFile);
    ghost var notes := [OutcomeNote(task, result)] + WriteLogNote(fs0, task.logPath);
    assert w == Wrapup(RemoveStep(rot.fs, taskFile).fs, rot.status, notes + RotationNote(rot.status));
    LogOutcome(h, task, result);
    RotateAndRemove(h, task.logPath, taskFile);
    assert h.fs == w.fs;
    assert h.console == c0 + notes + RotationNote(rot.status);
  }

  /** deployer.go:89-106: a decoded task is run and wrapped up; `e` is the
      run's Plan. */
  method RunTask(h: Host, task: Task, run: ScriptRun, taskFile: string, ghost e: Execution)
    returns (ghost fsA: Fs, ghost kA: nat)
    requires e == Plan(h.fs, task, run)
    modifies h`fs, h`ticks, h`cwd, h`console, h`procs
    ensures fsA == FsAfter(old(h.fs), task, e, h.clock, h.layout, old(h.ticks))
    ensures kA == old(h.ticks) + Ticks(e.items)
    ensures h.fs == Wrapped(fsA, kA, task, e.result, h.clock, h.layout, h.compact, taskFile).fs
    ensures h.console == old(h.console) + ["Processing deployment task: " + task.taskId] +
      Wrapped(fsA, kA, task, e.result, h.clock, h.layout, h.compact, taskFile).notes
    ensures h.ticks == kA + (if CanLog(fsA, task.logPath) then 1 else 0) + 1
    ensures h.procs == old(h.procs) + (if e.started then [ScriptCommand(task)] else [])
    ensures h.cwd == (if e.chdir then task.projectPath else old(h.cwd))
  {
    h.Say("Processing deployment task: " + task.taskId);
    var r := ExecuteDeployment(h, task, run);
    fsA, kA := h.fs, h.ticks;
    WrapUp(h, task, r, taskFile);
  }

  /** processDeploymentTask (deployer.go:75-107). An unreadable task file or
      a malformed record is logged and nothing else happens: no run, no log
      entry, and the task file stays. Otherwise the task runs, one outcome
      entry is appended, the log is rotated (a failure is only logged) and
      the task file is removed. */
  method ProcessDeploymentTask(h: Host, taskFile: string, run: ScriptRun)
    returns (ghost e: Execution, ghost fsA: Fs, ghost kA: nat)
    modifies h`fs, h`ticks, h`cwd, h`console, h`procs
    ensures ReadFile(old(h.fs), taskFile).Failure? ==>
      h.fs == old(h.fs) && h.ticks == old(h.ticks) && h.procs == old(h.procs) && h.cwd == old(h.cwd) &&
      h.console == old(h.console) + ["Failed to read task file " + taskFile + ": " + ReadFile(old(h.fs), taskFile).error]
    ensures ReadFile(old(h.fs), taskFile).Success? && Decode(ReadFile(old(h.fs), taskFile).value).Failure? ==>
      h.fs == old(h.fs) && h.ticks == old(h.ticks) && h.procs == old(h.procs) && h.cwd == old(h.cwd) &&
      h.console == old(h.console) +
        ["Failed to unmarshal task file " + taskFile + ": " + Decode(ReadFile(old(h.fs), taskFile).value).error]
    ensures ReadFile(old(h.fs), taskFile).Success? && Decode(ReadFile(old(h.fs), taskFile).value).Success? ==>
      var task := Decode(ReadFile(old(h.fs), taskFile).value).value;
      && e == Plan(old(h.fs), task, run)
      && fsA == FsAfter(old(h.fs), task, e, h.clock, h.layout, old(h.ticks))
      && kA == old(h.ticks) + Ticks(e.items)
      && h.fs == Wrapped(fsA, kA, task, e.result, h.clock, h.layout, h.compact, taskFile).fs
      && h.console == old(h.console) + ["Processing deployment task: " + task.taskId] +
           Wrapped(fsA, kA, task, e.result, h.clock, h.layout, h.compact, taskFile).notes
      && h.ticks == kA + (if CanLog(fsA, task.logPath) then 1 else 0) + 1
      && h.procs == old(h.procs) + (if e.started then [ScriptCommand(task)] else [])
      && h.cwd == (if e.chdir then task.projectPath else old(h.cwd))
  {
    e, fsA, kA := Execution(false, [], false, false, false, Ok), h.fs, h.ticks;
    var data := ReadFile(h.fs, taskFile);
    if data.Failure? {
      h.Say("Failed to read task file " + taskFile + ": " + data.error);
      return;
    }
    var decoded := Decode(data.value);
    if decoded.Failure? {
      h.Say("Failed to unmarshal task file " + taskFile + ": " + decoded.error);
      return;
    }
    e := Plan(h.fs, decoded.value, run);
    fsA, kA := RunTask(h, decoded.value, run, taskFile, e);
  }

  /** A run that never opened its log leaves the rotation without an active
      log to move (when none was there before): the rotation error is only
      logged, and the task file is removed all the same. */
  lemma MissingLogStillRemovesTask(fs: Fs, k: nat, task: Task, result: Status, clock: nat -> nat, layout: nat -> string,
                                   compact: nat -> string, taskFile: string)
    requires ActiveLog(task.logPath) !in fs && !CanLog(fs, task.logPath)
    requires taskFile in fs && fs[taskFile].File?
    ensures var w := Wrapped(fs, k, task, result, clock, layout, compact, taskFile);
      w.rotation.Err? && w.fs == fs - {taskFile}
  {
    var w := Wrapped(fs, k, task, result, clock, layout, compact, taskFile);
    assert LogWritten(fs, task.logPath, Entry(Stamp(clock, layout, k), OutcomeEntry(result))) == fs;
  }
}
