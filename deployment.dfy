/** deployment.go: the task record, path validation, the deployment run that
    writes the active log, and the log writer with its rotation. */
module Deployment {
  import opened Paths
  import opened Os
  import opened LogFormat
  import opened Streams

  /** DeploymentTask. `createdAt` is a Unix-nanosecond clock value. */
  datatype Task = Task(projectPath: string, scriptPath: string, logPath: string, taskId: string, createdAt: nat)

  const ActiveLogName := "deployment.log"

  function ActiveLog(dir: string): string {
    Join(dir, ActiveLogName)
  }

  /** Name of a rotated log; `ts` is the "20060102_150405" rendering. */
  function RotatedLogName(ts: string): string {
    "deployment_" + ts + ".log"
  }

  function RotatedLog(dir: string, ts: string): (p: string)
    ensures p != ActiveLog(dir)
  {
    Join(dir, RotatedLogName(ts))
  }

  // ---------------------------------------------------------------------
  // ValidatePaths (deployment.go:23-46)
  // ---------------------------------------------------------------------

  /** Only a not-exist answer of os.Stat counts as missing. */
  predicate Missing(fs: Fs, p: string) {
    Stat(fs, p).NotExist?
  }

  /** The first failing check's message, or None for nil. It reads the
      filesystem and changes nothing. */
  function ValidatePaths(fs: Fs, project: string, script: string, logs: string): (r: Option<string>)
    ensures r == None <==>
      IsAbs(project) && !Missing(fs, project) &&
      IsAbs(script) && !Missing(fs, script) &&
      IsAbs(logs) && !Missing(fs, logs)
  {
    if !IsAbs(project) then Some("project path must be absolute")
    else if Missing(fs, project) then Some("project path does not exist")
    else if !IsAbs(script) then Some("deployment script path must be absolute")
    else if Missing(fs, script) then Some("deployment script path does not exist")
    else if !IsAbs(logs) then Some("log path must be absolute")
    else if Missing(fs, logs) then Some("log path does not exist")
    else None
  }

  /** A name below a regular file does not count as missing: its stat fails
      with ENOTDIR, which is not a not-exist error, so validation lets it
      through and the run fails later. */
  lemma BelowFileIsNotMissing(fs: Fs, file: string, name: string)
    requires file in fs && fs[file].File? && '/' !in name
    requires Join(file, name) !in fs
    ensures Stat(fs, Join(file, name)) == StatFailed(ENOTDIR)
    ensures !Missing(fs, Join(file, name))
  {
    ParentOfJoin(file, name);
  }

  /** One validation check: whether it passes and the message it fails with. */
  datatype Check = Check(passed: bool, message: string)

  /** The six checks, in the order the program makes them. */
  function Checks(fs: Fs, project: string, script: string, logs: string): seq<Check> {
    [ Check(IsAbs(project), "project path must be absolute"),
      Check(!Missing(fs, project), "project path does not exist"),
      Check(IsAbs(script), "deployment script path must be absolute"),
      Check(!Missing(fs, script), "deployment script path does not exist"),
      Check(IsAbs(logs), "log path must be absolute"),
      Check(!Missing(fs, logs), "log path does not exist") ]
  }

  /** The message of the first check that fails. */
  function FirstFailure(cs: seq<Check>): Option<string> {
    if cs == [] then None
    else if !cs[0].passed then Some(cs[0].message)
    else FirstFailure(cs[1..])
  }

  /** FirstFailure is None exactly when every check passes, and otherwise the
      message of a failing check all of whose predecessors pass. */
  lemma {:induction false} FirstFailureIsFirst(cs: seq<Check>)
    ensures FirstFailure(cs) == None <==> forall i :: 0 <= i < |cs| ==> cs[i].passed
    ensures FirstFailure(cs).Some? ==>
      exists i :: 0 <= i < |cs| && !cs[i].passed && FirstFailure(cs).value == cs[i].message &&
                  forall j :: 0 <= j < i ==> cs[j].passed
  {
    if cs != [] && cs[0].passed {
      var tl := cs[1..];
      FirstFailureIsFirst(tl);
      assert forall j :: 1 <= j < |cs| ==> cs[j] == tl[j - 1];
      if FirstFailure(tl).Some? {
        var i :| 0 <= i < |tl| && !tl[i].passed && FirstFailure(tl).value == tl[i].message &&
                 forall j :: 0 <= j < i ==> tl[j].passed;
        assert !cs[i + 1].passed && FirstFailure(cs).value == cs[i + 1].message;
        assert forall j :: 0 <= j < i + 1 ==> cs[j].passed;
      }
    }
  }

  /** ValidatePaths reports exactly the message of the first failing check,
      in the fixed order project, script, log directory. */
  lemma ValidateIsFirstFailure(fs: Fs, project: string, script: string, logs: string)
    ensures ValidatePaths(fs, project, script, logs) == FirstFailure(Checks(fs, project, script, logs))
  {
    var cs := Checks(fs, project, script, logs);
    assert cs[5..][1..] == [];
    assert FirstFailure(cs[5..]) == if !cs[5].passed then Some(cs[5].message) else None;
    assert cs[4..][1..] == cs[5..];
    assert FirstFailure(cs[4..]) == if !cs[4].passed then Some(cs[4].message) else FirstFailure(cs[5..]);
    assert cs[3..][1..] == cs[4..];
    assert FirstFailure(cs[3..]) == if !cs[3].passed then Some(cs[3].message) else FirstFailure(cs[4..]);
    assert cs[2..][1..] == cs[3..];
    assert FirstFailure(cs[2..]) == if !cs[2].passed then Some(cs[2].message) else FirstFailure(cs[3..]);
    assert cs[1..][1..] == cs[2..];
    assert FirstFailure(cs[1..]) == if !cs[1].passed then Some(cs[1].message) else FirstFailure(cs[2..]);
    assert cs[0..][1..] == cs[1..];
    assert FirstFailure(cs[0..]) == if !cs[0].passed then Some(cs[0].message) else FirstFailure(cs[1..]);
    assert cs[0..] == cs;
  }

  // ---------------------------------------------------------------------
  // ExecuteDeployment (deployment.go:48-132), as a specification
  // ---------------------------------------------------------------------

  /** What the environment decides about a run: the outcome of the calls the
      model does not derive from the filesystem, the lines the script writes
      to each stream, how many of them each reader copies before its Scan
      stops, the order in which the two readers get to the log, and the
      script's exit (Err carries cmd.Wait's error text).

      A reader stops early when cmd.Wait closes its pipe while it is still
      reading (cmd.Wait is called before the readers are waited for), or at a
      line longer than the Scanner's 64 KiB limit; either way the rest of its
      stream is not logged. */
  datatype ScriptRun = ScriptRun(
    chmod: Status,
    stdoutPipe: Status,
    stderrPipe: Status,
    start: Status,
    stdout: seq<string>,
    stderr: seq<string>,
    stdoutRead: nat,
    stderrRead: nat,
    schedule: seq<bool>,
    exit: Status)

  /** What a run does: whether the active log was opened and truncated, the
      entries written to it, whether the working directory changed, whether
      chmod 0755 was applied, whether the script was started, and the error
      ExecuteDeployment returns. */
  datatype Execution = Execution(
    truncated: bool,
    items: seq<Item>,
    chdir: bool,
    chmod: bool,
    started: bool,
    result: Status)

  function Header(task: Task): (r: seq<Item>)
    ensures |r| == 4
  {
    [ Timed("=== Deployment Started: ", " ==="),
      Plain("Project Path: " + task.projectPath),
      Plain("Script Path: " + task.scriptPath),
      Plain("Task ID: " + task.taskId) ]
  }

  const Completed := Timed("=== Deployment Completed: ", " ===")

  /** The mode test `mode & 0111 == 0`. */
  predicate NeedsChmod(mode: Mode) {
    mode & ExecBits == 0
  }

  /** `bash <script>` in the project directory, with the three DEPLOYER_
      variables added to the inherited environment; waited on. The script
      reads each variable back as the task's own value. */
  function ScriptCommand(task: Task): (c: Command)
    ensures EnvValue(c.env, "DEPLOYER_TASK_ID") == Some(task.taskId)
    ensures EnvValue(c.env, "DEPLOYER_PROJECT_PATH") == Some(task.projectPath)
    ensures EnvValue(c.env, "DEPLOYER_LOG_PATH") == Some(task.logPath)
  {
    var id, project, log := "DEPLOYER_TASK_ID=" + task.taskId, "DEPLOYER_PROJECT_PATH=" + task.projectPath,
                            "DEPLOYER_LOG_PATH=" + task.logPath;
    var env := [id, project, log];
    assert env[..2] == [id, project] && [id, project][..1] == [id] && [id][..0] == [];
    assert log[9] == 'L' && project[9] == 'P' && id[9] == 'T';
    assert id[17..] == task.taskId && project[22..] == task.projectPath && log[18..] == task.logPath;
    assert EnvValue([id, project], "DEPLOYER_TASK_ID") == EnvValue([id], "DEPLOYER_TASK_ID") == Some(task.taskId);
    Command(["bash", task.scriptPath], task.projectPath, env, true)
  }

  /** The first `n` lines, or all of them when there are fewer: what a
      reader that stops after `n` lines copies. */
  function Received(lines: seq<string>, n: nat): (r: seq<string>)
    ensures |r| == if n < |lines| then n else |lines|
    ensures r == lines[..|r|]
  {
    if n < |lines| then lines[..n] else lines
  }

  /** The lines the script writes to stream `s`. */
  function Printed(run: ScriptRun, s: Stream): seq<string> {
    if s == Stdout then run.stdout else run.stderr
  }

  /** The lines the reader of stream `s` copies to the log. */
  function ReadOf(run: ScriptRun, s: Stream): seq<string> {
    if s == Stdout then Received(run.stdout, run.stdoutRead) else Received(run.stderr, run.stderrRead)
  }

  /** The captured output in log order. */
  function Captured(run: ScriptRun): seq<Item> {
    StreamItems(Merge(run.schedule, ReadOf(run, Stdout), ReadOf(run, Stderr)))
  }

  const ErrorTag := "[ERROR] "
  const WarningTag := "[WARNING] "

  function ErrorEntry(msg: string): Item {
    Plain(ErrorTag + msg)
  }

  function WarningEntry(msg: string): Item {
    Plain(WarningTag + msg)
  }

  /** The run of a task on filesystem `fs`: the steps in order, each failure
      ending the run with one [ERROR] entry. Opening the active log is the
      only step that fails before anything is logged. */
  function Plan(fs: Fs, task: Task, run: ScriptRun): (e: Execution)
    ensures !e.truncated ==> e.items == [] && !e.chdir && !e.chmod && !e.started && e.result.Err?
    ensures e.chdir ==> e.truncated
    ensures e.chmod ==> e.chdir && run.chmod == Ok
    ensures e.started ==> e.chdir && run.stdoutPipe == Ok && run.stderrPipe == Ok && run.start == Ok
    ensures e.result == Ok ==> e.started && run.exit == Ok
  {
    var open := OpenStatus(fs, task.logPath, ActiveLogName);
    if open.Err? then
      Execution(false, [], false, false, false, Err("failed to open log file: " + open.text))
    else
      OnLog(Opened(fs, ActiveLog(task.logPath), true), task, run)
  }

  /** The run once the active log is open and truncated: the header, then the
      change into the project directory. */
  function OnLog(fs1: Fs, task: Task, run: ScriptRun): (e: Execution)
    ensures e.truncated
    ensures e.chmod ==> e.chdir && run.chmod == Ok
    ensures e.started ==> e.chdir && run.stdoutPipe == Ok && run.stderrPipe == Ok && run.start == Ok
    ensures e.result == Ok ==> e.started && run.exit == Ok
  {
    var cd := ChdirStatus(fs1, task.projectPath);
    if cd.Err? then
      Execution(true, Header(task) + [ErrorEntry("Failed to change directory: " + cd.text)],
                false, false, false, Err("failed to change to project directory: " + cd.text))
    else
      InProject(fs1, task, run)
  }

  /** The run once in the project directory: the script must exist, and is
      made executable when it has no execute bit. */
  function InProject(fs1: Fs, task: Task, run: ScriptRun): (e: Execution)
    ensures e.truncated && e.chdir
    ensures e.chmod ==> run.chmod == Ok
    ensures e.started ==> run.stdoutPipe == Ok && run.stderrPipe == Ok && run.start == Ok
    ensures e.result == Ok ==> e.started && run.exit == Ok
  {
    var st := Stat(fs1, task.scriptPath);
    if !st.Found? then
      var text := PathError("stat", task.scriptPath, NotDirReason(st));
      Execution(true, Header(task) + [ErrorEntry("Script not found: " + text)],
                true, false, false, Err("deployment script not found: " + text))
    else
      Launch(run, Header(task) + ChmodWarning(st.mode, run), NeedsChmod(st.mode) && run.chmod == Ok)
  }

  /** The warning logged when the script has no execute bit and chmod fails. */
  function ChmodWarning(mode: Mode, run: ScriptRun): seq<Item> {
    if NeedsChmod(mode) && run.chmod.Err?
    then [WarningEntry("Failed to make script executable: " + run.chmod.text)] else []
  }

  /** The part of a run from the pipes on, once the log holds `pre` and the
      chmod step is done. */
  function Launch(run: ScriptRun, pre: seq<Item>, chmodded: bool): (e: Execution)
    ensures e.truncated && e.chdir && e.chmod == chmodded
    ensures e.started <==> run.stdoutPipe == Ok && run.stderrPipe == Ok && run.start == Ok
    ensures e.result == Ok <==> e.started && run.exit == Ok
  {
    if run.stdoutPipe.Err? then
      Execution(true, pre + [ErrorEntry("Failed to create stdout pipe: " + run.stdoutPipe.text)],
                true, chmodded, false, Err("failed to create stdout pipe: " + run.stdoutPipe.text))
    else if run.stderrPipe.Err? then
      Execution(true, pre + [ErrorEntry("Failed to create stderr pipe: " + run.stderrPipe.text)],
                true, chmodded, false, Err("failed to create stderr pipe: " + run.stderrPipe.text))
    else if run.start.Err? then
      Execution(true, pre + [ErrorEntry("Failed to start deployment script: " + run.start.text)],
                true, chmodded, false, Err("failed to start deployment script: " + run.start.text))
    else if run.exit.Err? then
      Execution(true, pre + Captured(run) + [ErrorEntry("Deployment script exited with error: " + run.exit.text)],
                true, chmodded, true, Err("deployment script failed: " + run.exit.text))
    else
      Execution(true, pre + Captured(run) + [Completed], true, chmodded, true, Ok)
  }

  /** The filesystem a run leaves: the active log truncated and holding the
      run's entries, and the script's mode changed when chmod was applied. */
  function FsAfter(fs: Fs, task: Task, e: Execution, clock: nat -> nat, layout: nat -> string, k: nat): Fs {
    if !e.truncated then fs
    else FsAfterOpen(Opened(fs, ActiveLog(task.logPath), true), task, e, clock, layout, k)
  }

  function FsAfterOpen(fs1: Fs, task: Task, e: Execution, clock: nat -> nat, layout: nat -> string, k: nat): Fs {
    var fs2 := if e.chmod then Chmodded(fs1, task.scriptPath, ExecutableMode) else fs1;
    SetLines(fs2, ActiveLog(task.logPath), Render(clock, layout, k, e.items))
  }

  // ---------------------------------------------------------------------
  // What a run writes to the log
  // ---------------------------------------------------------------------

  /** A Plain entry whose message starts with `tag` ("[ERROR]", "[WARNING]", ...). */
  predicate HasTag(it: Item, tag: string) {
    it.Plain? && HasPrefix(it.msg, tag)
  }

  function Count(items: seq<Item>, tag: string): nat {
    if items == [] then 0 else (if HasTag(items[0], tag) then 1 else 0) + Count(items[1..], tag)
  }

  lemma {:induction false} CountAppend(a: seq<Item>, b: seq<Item>, tag: string)
    ensures Count(a + b, tag) == Count(a, tag) + Count(b, tag)
    decreases a
  {
    if a == [] {
      assert a + b == b;
    } else {
      assert (a + b)[1..] == a[1..] + b;
      CountAppend(a[1..], b, tag);
    }
  }

  function StreamTag(s: Stream): string {
    "[" + Prefix(s) + "] "
  }

  /** The lines of stream s that the log holds, in log order. */
  function CapturedLines(items: seq<Item>, s: Stream): seq<string> {
    if items == [] then []
    else (if HasTag(items[0], StreamTag(s)) then [items[0].msg[|StreamTag(s)|..]] else []) + CapturedLines(items[1..], s)
  }

  lemma {:induction false} CapturedAppend(a: seq<Item>, b: seq<Item>, s: Stream)
    ensures CapturedLines(a + b, s) == CapturedLines(a, s) + CapturedLines(b, s)
    decreases a
  {
    if a == [] {
      assert a + b == b;
    } else {
      assert (a + b)[1..] == a[1..] + b;
      CapturedAppend(a[1..], b, s);
    }
  }

  /** A message is not tagged with `tag` when they differ at some position. */
  lemma Differs(msg: string, tag: string, i: nat)
    requires i < |tag| && i < |msg| && msg[i] != tag[i]
    ensures !HasPrefix(msg, tag)
  {
  }

  /** A captured line is tagged with its own stream only, and never looks like
      an [ERROR] or [WARNING] entry. */
  lemma StreamEntryTags(t: Stream, x: string, s: Stream, tag: string)
    requires |tag| >= 2 && tag[1] != 'S'
    ensures HasTag(Plain(StreamMessage(Prefix(t), x)), StreamTag(s)) <==> t == s
    ensures t == s ==> StreamMessage(Prefix(t), x)[|StreamTag(s)|..] == x
    ensures !HasTag(Plain(StreamMessage(Prefix(t), x)), tag)
  {
    var m := StreamMessage(Prefix(t), x);
    assert m == StreamTag(t) + x;
    assert m[1] == 'S';
    Differs(m, tag, 1);
    if t != s {
      assert m[4] != StreamTag(s)[4];
      Differs(m, StreamTag(s), 4);
    } else {
      assert m[..|StreamTag(s)|] == StreamTag(s);
    }
  }

  lemma {:induction false} StreamItemsCapture(m: seq<OutLine>, s: Stream, tag: string)
    requires |tag| >= 2 && tag[1] != 'S'
    ensures CapturedLines(StreamItems(m), s) == Only(m, s)
    ensures Count(StreamItems(m), tag) == 0
    decreases m
  {
    if m != [] {
      StreamItemsCapture(m[1..], s, tag);
      StreamEntryTags(m[0].stream, m[0].text, s, tag);
      assert StreamItems(m)[1..] == StreamItems(m[1..]);
    }
  }

  /** The header holds no tagged entry: its messages start with plain words. */
  lemma HeaderUntagged(task: Task, tag: string)
    requires |tag| > 0 && tag[0] == '['
    ensures Count(Header(task), tag) == 0
    ensures forall s :: CapturedLines(Header(task), s) == []
  {
    var h := Header(task);
    Differs(h[1].msg, tag, 0);
    Differs(h[2].msg, tag, 0);
    Differs(h[3].msg, tag, 0);
    assert h[3..][1..] == [] && h[2..][1..] == h[3..] && h[1..][1..] == h[2..];
    assert Count(h[3..], tag) == 0;
    assert Count(h[2..], tag) == 0;
    assert Count(h[1..], tag) == 0;
    forall s ensures CapturedLines(h, s) == [] {
      Differs(h[1].msg, StreamTag(s), 0);
      Differs(h[2].msg, StreamTag(s), 0);
      Differs(h[3].msg, StreamTag(s), 0);
      assert CapturedLines(h[3..], s) == [];
      assert CapturedLines(h[2..], s) == [];
      assert CapturedLines(h[1..], s) == [];
    }
  }

  /** The entries of one tagged message, counted by tag and by stream. */
  lemma TaggedEntry(tag: string, rest: string, other: string)
    requires |tag| >= 2 && tag[0] == '[' && tag[1] != 'S'
    requires |other| >= 2 && other[1] != tag[1]
    ensures Count([Plain(tag + rest)], tag) == 1
    ensures Count([Plain(tag + rest)], other) == 0
    ensures forall s :: CapturedLines([Plain(tag + rest)], s) == []
  {
    var m := tag + rest;
    assert m[..|tag|] == tag;
    assert m[1] == tag[1];
    Differs(m, other, 1);
    assert [Plain(m)][1..] == [];
    forall s ensures CapturedLines([Plain(m)], s) == [] {
      Differs(m, StreamTag(s), 1);
    }
  }

  // ---------------------------------------------------------------------
  // Properties of a run
  // ---------------------------------------------------------------------

  /** Whether the run logs a chmod warning: the script has no execute bit and
      the chmod fails. */
  predicate WarningCase(fs: Fs, task: Task, run: ScriptRun) {
    var fs1 := Opened(fs, ActiveLog(task.logPath), true);
    var st := Stat(fs1, task.scriptPath);
    OpenStatus(fs, task.logPath, ActiveLogName) == Ok &&
    ChdirStatus(fs1, task.projectPath) == Ok &&
    st.Found? && NeedsChmod(st.mode) && run.chmod.Err?
  }

  /** The layout of every log a run truncates: the header, at most one
      warning, the captured output when the script was started, and one
      terminal entry, which is the completion marker exactly on success and an
      [ERROR] entry otherwise. */
  lemma PlanShape(fs: Fs, task: Task, run: ScriptRun) returns (w: seq<Item>, mid: seq<Item>, last: Item, rest: string)
    requires Plan(fs, task, run).truncated
    ensures Plan(fs, task, run).items == Header(task) + w + mid + [last]
    ensures w == (if WarningCase(fs, task, run)
                  then [WarningEntry("Failed to make script executable: " + run.chmod.text)] else [])
    ensures mid == if Plan(fs, task, run).started then Captured(run) else []
    ensures Plan(fs, task, run).result == Ok ==> last == Completed
    ensures Plan(fs, task, run).result.Err? ==> last == ErrorEntry(rest)
    ensures last == Completed || last == ErrorEntry(rest)
  {
    var fs1 := Opened(fs, ActiveLog(task.logPath), true);
    var cd := ChdirStatus(fs1, task.projectPath);
    var st := Stat(fs1, task.scriptPath);
    w := if WarningCase(fs, task, run)
         then [WarningEntry("Failed to make script executable: " + run.chmod.text)] else [];
    if cd.Err? {
      mid, rest := [], "Failed to change directory: " + cd.text;
      last := ErrorEntry(rest);
    } else if !st.Found? {
      mid, rest := [], "Script not found: " + PathError("stat", task.scriptPath, NotDirReason(st));
      last := ErrorEntry(rest);
    } else {
      assert w == ChmodWarning(st.mode, run);
      var chmodded := NeedsChmod(st.mode) && run.chmod == Ok;
      assert Plan(fs, task, run) == Launch(run, Header(task) + w, chmodded);
      mid, last, rest := LaunchShape(run, Header(task) + w, chmodded);
    }
  }

  /** The entries Launch adds after `pre`: the captured output when the
      script was started, then one terminal entry. */
  lemma LaunchShape(run: ScriptRun, pre: seq<Item>, chmodded: bool) returns (mid: seq<Item>, last: Item, rest: string)
    ensures Launch(run, pre, chmodded).items == pre + mid + [last]
    ensures mid == if Launch(run, pre, chmodded).started then Captured(run) else []
    ensures Launch(run, pre, chmodded).result == Ok ==> last == Completed
    ensures Launch(run, pre, chmodded).result.Err? ==> last == ErrorEntry(rest)
    ensures last == Completed || last == ErrorEntry(rest)
  {
    mid := [];
    if run.stdoutPipe.Err? {
      rest := "Failed to create stdout pipe: " + run.stdoutPipe.text;
    } else if run.stderrPipe.Err? {
      rest := "Failed to create stderr pipe: " + run.stderrPipe.text;
    } else if run.start.Err? {
      rest := "Failed to start deployment script: " + run.start.text;
    } else if run.exit.Err? {
      mid, rest := Captured(run), "Deployment script exited with error: " + run.exit.text;
    } else {
      mid, rest := Captured(run), "";
    }
    last := if run.stdoutPipe == Ok && run.stderrPipe == Ok && run.start == Ok && run.exit == Ok
            then Completed else ErrorEntry(rest);
    assert pre + mid + [last] == pre + (mid + [last]);
  }

  lemma HeaderPrefix(hd: seq<Item>, tl: seq<Item>)
    requires |hd| == 4 && |tl| >= 1
    ensures |hd + tl| >= 5 && (hd + tl)[..4] == hd
  {
  }

  /** The terminal entry is never a warning or a stream line. */
  lemma TerminalUntagged(last: Item, rest: string)
    requires last == Completed || last == ErrorEntry(rest)
    ensures Count([last], WarningTag) == 0
    ensures forall s :: CapturedLines([last], s) == []
  {
    if last == Completed {
      assert [last][1..] == [];
    } else {
      TaggedEntry(ErrorTag, rest, WarningTag);
    }
  }

  /** The four header entries come first, in order, before any other entry. */
  lemma PlanHeaderFirst(fs: Fs, task: Task, run: ScriptRun)
    ensures Plan(fs, task, run).truncated ==>
      |Plan(fs, task, run).items| >= 5 && Plan(fs, task, run).items[..4] == Header(task)
  {
    if Plan(fs, task, run).truncated {
      var w, mid, last, rest := PlanShape(fs, task, run);
      HeaderPrefix(Header(task), w + mid + [last]);
    }
  }

  /** The tag counts of a log laid out as PlanShape describes. */
  lemma ShapeCounts(task: Task, run: ScriptRun, note: string, w: seq<Item>, mid: seq<Item>, last: Item, rest: string)
    requires w == [] || w == [WarningEntry(note)]
    requires mid == [] || mid == Captured(run)
    requires last == Completed || last == ErrorEntry(rest)
    ensures Count(Header(task) + w + mid + [last], ErrorTag) == if last == Completed then 0 else 1
    ensures Count(Header(task) + w + mid + [last], WarningTag) == |w|
  {
    CountAppend(Header(task) + w + mid, [last], ErrorTag);
    CountAppend(Header(task) + w, mid, ErrorTag);
    CountAppend(Header(task), w, ErrorTag);
    CountAppend(Header(task) + w + mid, [last], WarningTag);
    CountAppend(Header(task) + w, mid, WarningTag);
    CountAppend(Header(task), w, WarningTag);
    HeaderUntagged(task, ErrorTag);
    HeaderUntagged(task, WarningTag);
    if w != [] {
      TaggedEntry(WarningTag, note, ErrorTag);
    }
    StreamItemsCapture(Merge(run.schedule, ReadOf(run, Stdout), ReadOf(run, Stderr)), Stdout, ErrorTag);
    StreamItemsCapture(Merge(run.schedule, ReadOf(run, Stdout), ReadOf(run, Stderr)), Stdout, WarningTag);
    TerminalUntagged(last, rest);
    if last == Completed {
      assert [last][1..] == [];
      assert Count([last], ErrorTag) == 0;
    } else {
      TaggedEntry(ErrorTag, rest, WarningTag);
    }
  }

  /** Exactly one [ERROR] entry on a failed run and none on a successful
      one; the last entry is the completion marker exactly on success. */
  lemma PlanTerminalEntry(fs: Fs, task: Task, run: ScriptRun)
    ensures var e := Plan(fs, task, run);
      e.truncated ==>
        Count(e.items, ErrorTag) == (if e.result == Ok then 0 else 1) &&
        (e.result == Ok <==> e.items[|e.items| - 1] == Completed)
  {
    if Plan(fs, task, run).truncated {
      var w, mid, last, rest := PlanShape(fs, task, run);
      ShapeCounts(task, run, if run.chmod.Err? then "Failed to make script executable: " + run.chmod.text else "", w, mid, last, rest);
    }
  }

  /** A chmod warning is logged once exactly when the script has no execute
      bit and the chmod fails, and never otherwise. */
  lemma PlanWarning(fs: Fs, task: Task, run: ScriptRun)
    ensures Count(Plan(fs, task, run).items, WarningTag) == if WarningCase(fs, task, run) then 1 else 0
  {
    if Plan(fs, task, run).truncated {
      var w, mid, last, rest := PlanShape(fs, task, run);
      ShapeCounts(task, run, if run.chmod.Err? then "Failed to make script executable: " + run.chmod.text else "", w, mid, last, rest);
    }
  }

  /** The lines of each stream that reach the log are the ones its reader
      copied: a prefix of what the script wrote to it, each line once, tagged
      with its stream, in the order of its stream. When the script is not
      started, no stream line appears at all; when a reader gets to the end
      of its stream, every line of it is logged. */
  lemma PlanCapturesEveryLine(fs: Fs, task: Task, run: ScriptRun, s: Stream)
    ensures CapturedLines(Plan(fs, task, run).items, s) ==
      if !Plan(fs, task, run).started then [] else ReadOf(run, s)
    ensures var got := CapturedLines(Plan(fs, task, run).items, s);
      got == Printed(run, s)[..|got|]
    ensures Plan(fs, task, run).started && |ReadOf(run, s)| == |Printed(run, s)| ==>
      CapturedLines(Plan(fs, task, run).items, s) == Printed(run, s)
  {
    var e := Plan(fs, task, run);
    var want := if !e.started then [] else ReadOf(run, s);
    if e.truncated {
      var w, mid, last, rest := PlanShape(fs, task, run);
      HeaderUntagged(task, ErrorTag);
      if w != [] {
        TaggedEntry(WarningTag, "Failed to make script executable: " + run.chmod.text, ErrorTag);
      }
      StreamItemsCapture(Merge(run.schedule, ReadOf(run, Stdout), ReadOf(run, Stderr)), s, ErrorTag);
      MergeKeepsEachStream(run.schedule, ReadOf(run, Stdout), ReadOf(run, Stderr));
      TerminalUntagged(last, rest);
      CapturedOfParts(Header(task), w, mid, last, s, want);
    }
  }

  lemma CapturedOfParts(hd: seq<Item>, w: seq<Item>, mid: seq<Item>, last: Item, s: Stream, want: seq<string>)
    requires CapturedLines(hd, s) == [] && CapturedLines(w, s) == []
    requires CapturedLines(mid, s) == want && CapturedLines([last], s) == []
    ensures CapturedLines(hd + w + mid + [last], s) == want
  {
    CapturedAppend(hd + w + mid, [last], s);
    CapturedAppend(hd + w, mid, s);
    CapturedAppend(hd, w, s);
  }

  /** A failed chmod only adds its warning: the run goes on exactly as if the
      chmod had succeeded. */
  lemma ChmodFailureIsNotFatal(fs: Fs, task: Task, run: ScriptRun)
    ensures Plan(fs, task, run).result == Plan(fs, task, run.(chmod := Ok)).result
    ensures Plan(fs, task, run).started == Plan(fs, task, run.(chmod := Ok)).started
    ensures Plan(fs, task, run).chdir == Plan(fs, task, run.(chmod := Ok)).chdir
  {
  }

  /** chmod 0755 is applied exactly when the run reaches the mode test, the
      script has no execute bit and the chmod succeeds. */
  lemma PlanChmodOnlyWithoutExecBit(fs: Fs, task: Task, run: ScriptRun)
    ensures var fs1 := Opened(fs, ActiveLog(task.logPath), true);
      var st := Stat(fs1, task.scriptPath);
      Plan(fs, task, run).chmod <==>
        OpenStatus(fs, task.logPath, ActiveLogName) == Ok && ChdirStatus(fs1, task.projectPath) == Ok &&
        st.Found? && NeedsChmod(st.mode) && run.chmod == Ok
  {
  }

  /** A script that prints "hello" on its standard output and exits 0: the
      log holds the header, the stdout line and the completion marker. */
  lemma HelloScenario(fs: Fs, task: Task, run: ScriptRun)
    requires CanLog(fs, task.logPath)
    requires IsDirectory(Opened(fs, ActiveLog(task.logPath), true), task.projectPath)
    requires Stat(Opened(fs, ActiveLog(task.logPath), true), task.scriptPath).Found?
    requires run == ScriptRun(Ok, Ok, Ok, Ok, ["hello"], [], 1, 0, [], Ok)
    ensures Plan(fs, task, run).result == Ok
    ensures Plan(fs, task, run).items == Header(task) + [Plain("[STDOUT] hello"), Completed]
  {
    var fs1 := Opened(fs, ActiveLog(task.logPath), true);
    assert ChdirStatus(fs1, task.projectPath) == Ok;
    assert Merge(run.schedule, ReadOf(run, Stdout), ReadOf(run, Stderr)) == [OutLine(Stdout, "hello")] by {
      assert Tag(Stdout, ["hello"])[0] == OutLine(Stdout, "hello");
    }
    assert StreamMessage(Prefix(Stdout), "hello") == "[STDOUT] hello";
    assert StreamItems([OutLine(Stdout, "hello")])[0] == Plain("[STDOUT] hello");
    assert Captured(run) == [Plain("[STDOUT] hello")];
    assert Header(task) + ChmodWarning(Stat(fs1, task.scriptPath).mode, run) == Header(task);
  }

  /** The run as written: cmd.Wait (deployment.go:120) closes the pipes
      while the readers may still be copying. A script that prints "a" and
      "b" and exits 0, whose stdout reader has copied only "a" when its pipe
      is closed, is logged as a successful deployment without its "b". */
  lemma WaitRaceDropsOutput(fs: Fs, task: Task, run: ScriptRun)
    requires CanLog(fs, task.logPath)
    requires IsDirectory(Opened(fs, ActiveLog(task.logPath), true), task.projectPath)
    requires Stat(Opened(fs, ActiveLog(task.logPath), true), task.scriptPath).Found?
    requires run == ScriptRun(Ok, Ok, Ok, Ok, ["a", "b"], [], 1, 0, [], Ok)
    ensures Plan(fs, task, run).result == Ok
    ensures Plan(fs, task, run).items[|Plan(fs, task, run).items| - 1] == Completed
    ensures CapturedLines(Plan(fs, task, run).items, Stdout) == ["a"] != run.stdout
  {
    var fs1 := Opened(fs, ActiveLog(task.logPath), true);
    assert ChdirStatus(fs1, task.projectPath) == Ok;
    PlanCapturesEveryLine(fs, task, run, Stdout);
    assert ReadOf(run, Stdout) == ["a"];
  }

  /** The run with the readers waited for before cmd.Wait, as the pipes'
      contract asks: each reader copies its stream to the end (lines within
      the Scanner's limit). */
  function Joined(run: ScriptRun): (j: ScriptRun)
    ensures ReadOf(j, Stdout) == run.stdout && ReadOf(j, Stderr) == run.stderr
    ensures j.stdout == run.stdout && j.stderr == run.stderr && j.exit == run.exit
  {
    run.(stdoutRead := |run.stdout|, stderrRead := |run.stderr|)
  }

  /** With the readers joined first, every line the script writes is logged,
      once, in its stream's order. */
  lemma JoinedCapturesEveryLine(fs: Fs, task: Task, run: ScriptRun, s: Stream)
    ensures CapturedLines(Plan(fs, task, Joined(run)).items, s) ==
      if !Plan(fs, task, Joined(run)).started then [] else Printed(run, s)
  {
    PlanCapturesEveryLine(fs, task, Joined(run), s);
  }

  /** When one reader copies nothing, the two readers together log exactly
      what ReadAndLogOutput logs for the other one. */
  lemma DrainOfOneReader(run: ScriptRun, s: Stream)
    requires ReadOf(run, if s == Stdout then Stderr else Stdout) == []
    ensures Captured(run) == StreamItems(Tag(s, ReadOf(run, s)))
  {
  }

  // ---------------------------------------------------------------------
  // The log writer (deployment.go:134-166)
  // ---------------------------------------------------------------------

  /** writeLogEntry: one clock reading, then one "[<ts>] <message>" line
      written to the open log. */
  method WriteLogEntry(h: Host, log: string, msg: string)
    modifies h`fs, h`ticks
    ensures h.ticks == old(h.ticks) + 1
    ensures h.fs == Appended(old(h.fs), log, Entry(Stamp(h.clock, h.layout, old(h.ticks)), msg))
  {
    var t := h.Now();
    h.Append(log, Entry(h.layout(t), msg));
  }

  /** One entry of a run; a Timed entry formats its own clock reading into the
      message before writeLogEntry takes the entry's timestamp. */
  method WriteItem(h: Host, log: string, it: Item)
    modifies h`fs, h`ticks
    ensures h.ticks == old(h.ticks) + Cost(it)
    ensures h.fs == Appended(old(h.fs), log, Line(h.clock, h.layout, old(h.ticks), it))
  {
    match it
    case Plain(m) =>
      WriteLogEntry(h, log, m);
    case Timed(b, a) =>
      var t := h.Now();
      WriteLogEntry(h, log, b + h.layout(t) + a);
  }

  /** The entries of a run written so far: the log, which held `pre` in
      `base`, now holds `pre` followed by the lines of `written`, stamped from
      clock index k0 on; nothing else in `base` has changed. */
  ghost predicate Logged(h: Host, fs: Fs, ticks: nat, log: string, base: Fs, pre: seq<string>, k0: nat, written: seq<Item>) {
    fs == SetLines(base, log, pre + Render(h.clock, h.layout, k0, written)) &&
    ticks == k0 + Ticks(written)
  }

  /** WriteItem, with the run's log growing by one entry. */
  method LogItem(h: Host, log: string, it: Item, ghost base: Fs, ghost pre: seq<string>, ghost k0: nat, ghost written: seq<Item>)
    requires Logged(h, h.fs, h.ticks, log, base, pre, k0, written)
    modifies h`fs, h`ticks
    ensures Logged(h, h.fs, h.ticks, log, base, pre, k0, written + [it])
  {
    ghost var before := Render(h.clock, h.layout, k0, written);
    ghost var line := Line(h.clock, h.layout, k0 + Ticks(written), it);
    WriteItem(h, log, it);
    RenderAppend(h.clock, h.layout, k0, written, [it]);
    TicksAppend(written, [it]);
    AppendedSetLines(base, log, pre + before, line);
    assert Render(h.clock, h.layout, k0 + Ticks(written), [it]) == [line];
    assert pre + before + [line] == pre + (before + [line]);
  }

  lemma {:induction false} StreamItemsAppend(a: seq<OutLine>, b: seq<OutLine>)
    ensures StreamItems(a + b) == StreamItems(a) + StreamItems(b)
    decreases a
  {
    if a == [] {
      assert a + b == b;
    } else {
      assert (a + b)[1..] == a[1..] + b;
      StreamItemsAppend(a[1..], b);
    }
  }

  /** One more line read is one more entry. */
  lemma StreamItemsNext(s: Stream, lines: seq<string>, i: nat)
    requires i < |lines|
    ensures StreamItems(Tag(s, lines[..i + 1])) ==
      StreamItems(Tag(s, lines[..i])) + [Plain(StreamMessage(Prefix(s), lines[i]))]
  {
    var t := Tag(s, lines[..i]);
    assert Tag(s, lines[..i + 1]) == t + [OutLine(s, lines[i])];
    StreamItemsAppend(t, [OutLine(s, lines[i])]);
  }

  /** readAndLogOutput: the reader of one stream copies its lines to the log
      in order, each as a "[<ts>] [<prefix>] <line>" entry, appended after
      whatever the log already holds. Its Scan loop ends after `read` lines
      when the pipe is closed or a line is too long, or at the end of the
      stream. */
  method ReadAndLogOutput(h: Host, log: string, s: Stream, lines: seq<string>, read: nat)
    modifies h`fs, h`ticks
    ensures h.fs == SetLines(old(h.fs), log,
      LinesOf(old(h.fs), log) + Render(h.clock, h.layout, old(h.ticks), StreamItems(Tag(s, Received(lines, read)))))
    ensures h.ticks == old(h.ticks) + |Received(lines, read)|
  {
    ghost var base := h.fs;
    ghost var pre := LinesOf(base, log);
    ghost var k0 := h.ticks;
    SetLinesOwn(base, log);
    assert pre + Render(h.clock, h.layout, k0, []) == pre;
    var got := Received(lines, read);
    assert Tag(s, got[..0]) == [];
    var i := 0;
    while i < |got|
      invariant 0 <= i <= |got|
      invariant Logged(h, h.fs, h.ticks, log, base, pre, k0, StreamItems(Tag(s, got[..i])))
    {
      LogItem(h, log, Plain(StreamMessage(Prefix(s), got[i])), base, pre, k0, StreamItems(Tag(s, got[..i])));
      StreamItemsNext(s, got, i);
      i := i + 1;
    }
    assert got[..i] == got;
    StreamTicks(Tag(s, got));
  }



  /** Every stream entry takes one clock reading. */
  lemma {:induction false} StreamTicks(m: seq<OutLine>)
    ensures Ticks(StreamItems(m)) == |m|
    decreases m
  {
    if m != [] {
      StreamTicks(m[1..]);
      assert StreamItems(m)[1..] == StreamItems(m[1..]);
    }
  }

  /** The stdout reader goes next when it has a line and the stderr reader
      has none or the scheduler lets stdout go first. */
  lemma MergeStdoutNext(sch: seq<bool>, o: seq<string>, e: seq<string>)
    requires o != [] && (e == [] || sch == [] || sch[0])
    ensures Merge(sch, o, e) == [OutLine(Stdout, o[0])] + Merge(Rest(sch), o[1..], e)
  {
    if e == [] {
      assert Tag(Stdout, o) == [OutLine(Stdout, o[0])] + Tag(Stdout, o[1..]);
    }
  }

  lemma MergeStderrNext(sch: seq<bool>, o: seq<string>, e: seq<string>)
    requires e != [] && (o == [] || (sch != [] && !sch[0]))
    ensures Merge(sch, o, e) == [OutLine(Stderr, e[0])] + Merge(Rest(sch), o, e[1..])
  {
    if o == [] {
      assert Tag(Stderr, e) == [OutLine(Stderr, e[0])] + Tag(Stderr, e[1..]);
    }
  }

  lemma DoneStep(done: seq<OutLine>, next: OutLine, rest: seq<OutLine>, remaining: seq<OutLine>, whole: seq<OutLine>)
    requires done + remaining == whole && remaining == [next] + rest
    ensures (done + [next]) + rest == whole
  {
  }

  /** The stdout reader copies its next line. */
  lemma StdoutAdvances(sch: seq<bool>, out: seq<string>, err: seq<string>, i: nat, j: nat,
                       done: seq<OutLine>, whole: seq<OutLine>)
    requires i < |out| && j <= |err| && (j == |err| || sch == [] || sch[0])
    requires done + Merge(sch, out[i..], err[j..]) == whole
    ensures (done + [OutLine(Stdout, out[i])]) + Merge(Rest(sch), out[i + 1..], err[j..]) == whole
  {
    MergeStdoutNext(sch, out[i..], err[j..]);
    assert out[i..][1..] == out[i + 1..];
    DoneStep(done, OutLine(Stdout, out[i]), Merge(Rest(sch), out[i + 1..], err[j..]), Merge(sch, out[i..], err[j..]), whole);
  }

  /** The stderr reader copies its next line. */
  lemma StderrAdvances(sch: seq<bool>, out: seq<string>, err: seq<string>, i: nat, j: nat,
                       done: seq<OutLine>, whole: seq<OutLine>)
    requires i <= |out| && j < |err| && (i == |out| || (sch != [] && !sch[0]))
    requires done + Merge(sch, out[i..], err[j..]) == whole
    ensures (done + [OutLine(Stderr, err[j])]) + Merge(Rest(sch), out[i..], err[j + 1..]) == whole
  {
    MergeStderrNext(sch, out[i..], err[j..]);
    assert err[j..][1..] == err[j + 1..];
    DoneStep(done, OutLine(Stderr, err[j]), Merge(Rest(sch), out[i..], err[j + 1..]), Merge(sch, out[i..], err[j..]), whole);
  }

  /** One more merged line logged. */
  lemma LoggedMore(written: seq<Item>, done: seq<OutLine>, next: OutLine)
    ensures written + StreamItems(done) + [Plain(StreamMessage(Prefix(next.stream), next.text))]
         == written + StreamItems(done + [next])
  {
    StreamItemsAppend(done, [next]);
  }

  /** One captured line appended to the run's log. */
  method LogLine(h: Host, log: string, next: OutLine, ghost base: Fs, ghost pre: seq<string>, ghost k0: nat,
                 ghost written: seq<Item>, ghost done: seq<OutLine>)
    requires Logged(h, h.fs, h.ticks, log, base, pre, k0, written + StreamItems(done))
    modifies h`fs, h`ticks
    ensures Logged(h, h.fs, h.ticks, log, base, pre, k0, written + StreamItems(done + [next]))
  {
    LogItem(h, log, Plain(StreamMessage(Prefix(next.stream), next.text)), base, pre, k0, written + StreamItems(done));
    LoggedMore(written, done, next);
  }

  /** One step of the two readers: the stdout reader copies its next line
      when the stderr reader is done or the schedule lets it go first,
      otherwise the stderr reader does; the schedule moves on either way. */
  method CopyNext(h: Host, log: string, out: seq<string>, err: seq<string>, i: nat, j: nat, sch: seq<bool>,
                  ghost base: Fs, ghost pre: seq<string>, ghost k0: nat, ghost written: seq<Item>,
                  ghost done: seq<OutLine>, ghost whole: seq<OutLine>)
    returns (i2: nat, j2: nat, sch2: seq<bool>, ghost done2: seq<OutLine>)
    requires i <= |out| && j <= |err| && (i < |out| || j < |err|)
    requires done + Merge(sch, out[i..], err[j..]) == whole
    requires Logged(h, h.fs, h.ticks, log, base, pre, k0, written + StreamItems(done))
    modifies h`fs, h`ticks
    ensures i <= i2 <= |out| && j <= j2 <= |err| && i2 + j2 == i + j + 1
    ensures done2 + Merge(sch2, out[i2..], err[j2..]) == whole
    ensures Logged(h, h.fs, h.ticks, log, base, pre, k0, written + StreamItems(done2))
  {
    var next: OutLine;
    if i < |out| && (j == |err| || sch == [] || sch[0]) {
      next := OutLine(Stdout, out[i]);
      StdoutAdvances(sch, out, err, i, j, done, whole);
      i2, j2 := i + 1, j;
    } else {
      next := OutLine(Stderr, err[j]);
      StderrAdvances(sch, out, err, i, j, done, whole);
      i2, j2 := i, j + 1;
    }
    sch2 := Rest(sch);
    LogLine(h, log, next, base, pre, k0, written, done);
    done2 := done + [next];
  }

  /** The two readers of ExecuteDeployment running side by side: at each step
      one of them copies its next line, the scheduler choosing while both
      have lines left. The log gains the lines in the order Merge gives. */
  method DrainStreams(h: Host, log: string, out: seq<string>, err: seq<string>, schedule: seq<bool>,
                      ghost base: Fs, ghost pre: seq<string>, ghost k0: nat, ghost written: seq<Item>)
    requires Logged(h, h.fs, h.ticks, log, base, pre, k0, written)
    modifies h`fs, h`ticks
    ensures Logged(h, h.fs, h.ticks, log, base, pre, k0, written + StreamItems(Merge(schedule, out, err)))
  {
    var i: nat, j: nat, sch := 0, 0, schedule;
    ghost var done: seq<OutLine> := [];
    ghost var whole := Merge(schedule, out, err);
    assert out[i..] == out && err[j..] == err;
    assert done + whole == whole;
    assert written + StreamItems(done) == written;
    while i < |out| || j < |err|
      invariant i <= |out| && j <= |err|
      invariant done + Merge(sch, out[i..], err[j..]) == whole
      invariant Logged(h, h.fs, h.ticks, log, base, pre, k0, written + StreamItems(done))
      decreases |out| - i + |err| - j
    {
      i, j, sch, done := CopyNext(h, log, out, err, i, j, sch, base, pre, k0, written, done, whole);
    }
    assert out[i..] == [] && err[j..] == [];
    assert Merge(sch, [], []) == [];
    assert done == whole;
  }

  /** The log as a run opens it: truncated, so the entries written from here
      on are all it holds. */
  lemma OpenedLogged(h: Host, log: string, fs: Fs, k: nat)
    requires IsFile(fs, log) && LinesOf(fs, log) == []
    ensures Logged(h, fs, k, log, fs, [], k, [])
  {
    assert [] + Render(h.clock, h.layout, k, []) == [];
    SetLinesOwn(fs, log);
  }

  /** The pipes, the start, the two readers and the wait: the part of a run
      Launch describes, on a log that already holds `pre`. */
  method RunScript(h: Host, task: Task, run: ScriptRun, log: string,
                   ghost base: Fs, ghost k0: nat, ghost pre: seq<Item>, ghost chmodded: bool) returns (r: Status)
    requires Logged(h, h.fs, h.ticks, log, base, [], k0, pre)
    modifies h`fs, h`ticks, h`procs
    ensures r == Launch(run, pre, chmodded).result
    ensures Logged(h, h.fs, h.ticks, log, base, [], k0, Launch(run, pre, chmodded).items)
    ensures h.procs == old(h.procs) + if Launch(run, pre, chmodded).started then [ScriptCommand(task)] else []
  {
    if run.stdoutPipe.Err? {
      LogItem(h, log, ErrorEntry("Failed to create stdout pipe: " + run.stdoutPipe.text), base, [], k0, pre);
      return Err("failed to create stdout pipe: " + run.stdoutPipe.text);
    }
    if run.stderrPipe.Err? {
      LogItem(h, log, ErrorEntry("Failed to create stderr pipe: " + run.stderrPipe.text), base, [], k0, pre);
      return Err("failed to create stderr pipe: " + run.stderrPipe.text);
    }
    if run.start.Err? {
      LogItem(h, log, ErrorEntry("Failed to start deployment script: " + run.start.text), base, [], k0, pre);
      return Err("failed to start deployment script: " + run.start.text);
    }
    h.Start(ScriptCommand(task));
    DrainStreams(h, log, ReadOf(run, Stdout), ReadOf(run, Stderr), run.schedule, base, [], k0, pre);
    ghost var w := pre + Captured(run);
    if run.exit.Err? {
      LogItem(h, log, ErrorEntry("Deployment script exited with error: " + run.exit.text), base, [], k0, w);
      return Err("deployment script failed: " + run.exit.text);
    }
    LogItem(h, log, Completed, base, [], k0, w);
    return Ok;
  }

  /** The mode test and chmod 0755 of deployment.go:77-82: a failed chmod is
      logged as a warning and the run goes on. */
  method MakeExecutable(h: Host, task: Task, run: ScriptRun, log: string, mode: Mode,
                        ghost fs1: Fs, ghost k0: nat, ghost w: seq<Item>) returns (ghost base: Fs)
    requires Logged(h, h.fs, h.ticks, log, fs1, [], k0, w)
    modifies h`fs, h`ticks
    ensures base == if NeedsChmod(mode) && run.chmod == Ok then Chmodded(fs1, task.scriptPath, ExecutableMode) else fs1
    ensures Logged(h, h.fs, h.ticks, log, base, [], k0, w + ChmodWarning(mode, run))
  {
    base := fs1;
    if NeedsChmod(mode) {
      var c := h.Chmod(task.scriptPath, ExecutableMode, run.chmod);
      if c.Err? {
        LogItem(h, log, WarningEntry("Failed to make script executable: " + c.text), fs1, [], k0, w);
      } else {
        ChmodSetLines(fs1, log, [] + Render(h.clock, h.layout, k0, w), task.scriptPath, ExecutableMode);
        base := Chmodded(fs1, task.scriptPath, ExecutableMode);
        assert w + ChmodWarning(mode, run) == w;
      }
    } else {
      assert w + ChmodWarning(mode, run) == w;
    }
  }

  /** deployment.go:70-132 once in the project directory: the stat of the
      script, the chmod step, then the script itself. */
  method RunInProject(h: Host, task: Task, run: ScriptRun, log: string, ghost fs1: Fs, ghost k0: nat) returns (r: Status)
    requires log == ActiveLog(task.logPath)
    requires Logged(h, h.fs, h.ticks, log, fs1, [], k0, Header(task))
    modifies h`fs, h`ticks, h`procs
    ensures r == InProject(fs1, task, run).result
    ensures h.fs == FsAfterOpen(fs1, task, InProject(fs1, task, run), h.clock, h.layout, k0)
    ensures h.ticks == k0 + Ticks(InProject(fs1, task, run).items)
    ensures h.procs == old(h.procs) + if InProject(fs1, task, run).started then [ScriptCommand(task)] else []
  {
    SetLinesKeepsShape(fs1, log, [] + Render(h.clock, h.layout, k0, Header(task)), task.scriptPath);
    var st := Stat(h.fs, task.scriptPath);
    if !st.Found? {
      var text := PathError("stat", task.scriptPath, NotDirReason(st));
      LogItem(h, log, ErrorEntry("Script not found: " + text), fs1, [], k0, Header(task));
      assert [] + Render(h.clock, h.layout, k0, Header(task) + [ErrorEntry("Script not found: " + text)])
          == Render(h.clock, h.layout, k0, Header(task) + [ErrorEntry("Script not found: " + text)]);
      return Err("deployment script not found: " + text);
    }
    ghost var base := MakeExecutable(h, task, run, log, st.mode, fs1, k0, Header(task));
    ghost var pre := Header(task) + ChmodWarning(st.mode, run);
    ghost var chmodded := NeedsChmod(st.mode) && run.chmod == Ok;
    r := RunScript(h, task, run, log, base, k0, pre, chmodded);
    ghost var items := Launch(run, pre, chmodded).items;
    assert [] + Render(h.clock, h.layout, k0, items) == Render(h.clock, h.layout, k0, items);
  }

  /** The four entries deployment.go:59-62 writes first. */
  method WriteHeader(h: Host, task: Task, log: string, ghost fs1: Fs, ghost k0: nat)
    requires Logged(h, h.fs, h.ticks, log, fs1, [], k0, [])
    modifies h`fs, h`ticks
    ensures Logged(h, h.fs, h.ticks, log, fs1, [], k0, Header(task))
  {
    var hd := Header(task);
    LogItem(h, log, hd[0], fs1, [], k0, []);
    LogItem(h, log, hd[1], fs1, [], k0, [hd[0]]);
    assert [hd[0]] + [hd[1]] == hd[..2];
    LogItem(h, log, hd[2], fs1, [], k0, hd[..2]);
    assert hd[..2] + [hd[2]] == hd[..3];
    LogItem(h, log, hd[3], fs1, [], k0, hd[..3]);
    assert hd[..3] + [hd[3]] == hd;
  }

  /** deployment.go:57-68 once the log is open: the four header entries, then
      the change into the project directory. */
  method RunOnLog(h: Host, task: Task, run: ScriptRun, log: string) returns (r: Status)
    requires log == ActiveLog(task.logPath)
    requires IsFile(h.fs, log) && LinesOf(h.fs, log) == []
    modifies h`fs, h`ticks, h`cwd, h`procs
    ensures r == OnLog(old(h.fs), task, run).result
    ensures h.fs == FsAfterOpen(old(h.fs), task, OnLog(old(h.fs), task, run), h.clock, h.layout, old(h.ticks))
    ensures h.ticks == old(h.ticks) + Ticks(OnLog(old(h.fs), task, run).items)
    ensures h.cwd == if OnLog(old(h.fs), task, run).chdir then task.projectPath else old(h.cwd)
    ensures h.procs == old(h.procs) + if OnLog(old(h.fs), task, run).started then [ScriptCommand(task)] else []
  {
    ghost var fs1 := h.fs;
    ghost var k0 := h.ticks;
    OpenedLogged(h, log, fs1, k0);
    WriteHeader(h, task, log, fs1, k0);
    ghost var w := Header(task);
    SetLinesKeepsShape(fs1, log, [] + Render(h.clock, h.layout, k0, w), task.projectPath);
    var cd := h.Chdir(task.projectPath);
    if cd.Err? {
      LogItem(h, log, ErrorEntry("Failed to change directory: " + cd.text), fs1, [], k0, w);
      assert [] + Render(h.clock, h.layout, k0, w + [ErrorEntry("Failed to change directory: " + cd.text)])
          == Render(h.clock, h.layout, k0, w + [ErrorEntry("Failed to change directory: " + cd.text)]);
      return Err("failed to change to project directory: " + cd.text);
    }
    r := RunInProject(h, task, run, log, fs1, k0);
  }

  /** ExecuteDeployment (deployment.go:48-132): the run Plan describes. It
      returns Plan's error, leaves the filesystem FsAfter describes, takes one
      clock reading per entry (two for the timed ones), moves into the project
      directory once the chdir succeeds, and starts the script exactly when
      Plan says it is started. */
  method ExecuteDeployment(h: Host, task: Task, run: ScriptRun) returns (r: Status)
    modifies h`fs, h`ticks, h`cwd, h`procs
    ensures r == Plan(old(h.fs), task, run).result
    ensures h.fs == FsAfter(old(h.fs), task, Plan(old(h.fs), task, run), h.clock, h.layout, old(h.ticks))
    ensures h.ticks == old(h.ticks) + Ticks(Plan(old(h.fs), task, run).items)
    ensures h.cwd == if Plan(old(h.fs), task, run).chdir then task.projectPath else old(h.cwd)
    ensures h.procs == old(h.procs) + if Plan(old(h.fs), task, run).started then [ScriptCommand(task)] else []
  {
    var log := ActiveLog(task.logPath);
    var open := h.Open(task.logPath, ActiveLogName, true);
    if open.Err? {
      return Err("failed to open log file: " + open.text);
    }
    r := RunOnLog(h, task, run, log);
  }

  // ---------------------------------------------------------------------
  // WriteLog and RotateLog (deployment.go:157-176)
  // ---------------------------------------------------------------------

  /** The filesystem after one entry is appended to the active log of `dir`
      (O_APPEND open, created when missing). */
  function LogAppended(fs: Fs, dir: string, line: string): Fs {
    Appended(Opened(fs, ActiveLog(dir), false), ActiveLog(dir), line)
  }

  /** Appending keeps the history: the file the active log leads to (itself,
      or a link's target) holds its old lines (none if it was missing)
      followed by the new one, and no other path changes. */
  lemma LogAppendedKeepsHistory(fs: Fs, dir: string, line: string)
    requires OpenStatus(fs, dir, ActiveLogName) == Ok
    ensures var r := LogAppended(fs, dir, line);
      LinesOf(r, ActiveLog(dir)) == LinesOf(fs, ActiveLog(dir)) + [line] &&
      r.Keys == fs.Keys + {Resolve(fs, ActiveLog(dir))} &&
      forall q :: q in fs && q != Resolve(fs, ActiveLog(dir)) ==> r[q] == fs[q]
  {
  }

  /** Whether WriteLog can open the active log of `dir` in `fs`. */
  predicate CanLog(fs: Fs, dir: string) {
    OpenStatus(fs, dir, ActiveLogName) == Ok
  }

  /** The filesystem WriteLog leaves: the entry appended when the active log
      can be opened, no change otherwise. */
  function LogWritten(fs: Fs, dir: string, line: string): Fs {
    if CanLog(fs, dir) then LogAppended(fs, dir, line) else fs
  }

  /** What WriteLog tells the program's own log: the open failure, if any. */
  function WriteLogNote(fs: Fs, dir: string): seq<string> {
    if CanLog(fs, dir) then [] else ["Failed to open log file for writing: " + OpenStatus(fs, dir, ActiveLogName).text]
  }

  /** After one entry is written, the active log can be opened again. */
  lemma LogWrittenStaysOpen(fs: Fs, dir: string, line: string)
    requires CanLog(fs, dir)
    ensures CanLog(LogWritten(fs, dir, line), dir)
  {
    LogAppendedKeepsHistory(fs, dir, line);
  }

  /** WriteLog: append one entry to the active log, reading the clock once;
      when the log cannot be opened the failure goes to the program's own log
      and nothing else changes. */
  method WriteLog(h: Host, logPath: string, message: string)
    modifies h`fs, h`ticks, h`console
    ensures h.fs == LogWritten(old(h.fs), logPath, Entry(Stamp(h.clock, h.layout, old(h.ticks)), message))
    ensures h.ticks == old(h.ticks) + if CanLog(old(h.fs), logPath) then 1 else 0
    ensures h.console == old(h.console) + WriteLogNote(old(h.fs), logPath)
  {
    var r := h.Open(logPath, ActiveLogName, false);
    if r.Err? {
      h.Say("Failed to open log file for writing: " + r.text);
      return;
    }
    WriteLogEntry(h, ActiveLog(logPath), message);
  }


  // ---------------------------------------------------------------------
  // The outcome entry
  // ---------------------------------------------------------------------

  const SuccessEntry := "[SUCCESS] Deployment completed successfully"

  /** The outcome entry both runners append after the run: exactly one
      of the failure entry, carrying the run's error, and the success entry. */
  function OutcomeEntry(r: Status): (line: string)
    ensures r.Err? <==> line != SuccessEntry
    ensures r.Err? ==> line == "[ERROR] Deployment failed: " + r.text
  {
    if r.Err? then
      var line := "[ERROR] Deployment failed: " + r.text;
      assert line[1] != SuccessEntry[1];
      line
    else SuccessEntry
  }

  /** RotateLog's effect once the compact timestamp `ts` is read: nothing
      when the active log does not exist, otherwise its rename. A failed
      rotation changes nothing. */
  function Rotation(fs: Fs, dir: string, ts: string): (r: Step)
    ensures Stat(fs, ActiveLog(dir)).NotExist? ==> r == Step(Ok, fs)
    ensures r.status.Err? ==> r.fs == fs
  {
    if Stat(fs, ActiveLog(dir)).NotExist? then Step(Ok, fs)
    else RenameStep(fs, ActiveLog(dir), RotatedLog(dir, ts))
  }

  /** Rotating an active log (a file, or a link to one) moves it, unchanged,
      to the rotated name and frees the active name for the next run. */
  lemma RotationMovesLog(fs: Fs, dir: string, ts: string)
    requires ActiveLog(dir) in fs && IsFile(fs, ActiveLog(dir))
    requires !(RotatedLog(dir, ts) in fs && fs[RotatedLog(dir, ts)].Dir?)
    ensures var r := Rotation(fs, dir, ts);
      r.status == Ok && ActiveLog(dir) !in r.fs &&
      RotatedLog(dir, ts) in r.fs && r.fs[RotatedLog(dir, ts)] == fs[ActiveLog(dir)]
  {
  }

  /** RotateLog: one reading of the clock in the compact layout, then the
      rotation. */
  method RotateLog(h: Host, logDir: string) returns (r: Status)
    modifies h`fs, h`ticks
    ensures h.ticks == old(h.ticks) + 1
    ensures r == Rotation(old(h.fs), logDir, h.compact(h.clock(old(h.ticks)))).status
    ensures h.fs == Rotation(old(h.fs), logDir, h.compact(h.clock(old(h.ticks)))).fs
  {
    var activeLog := ActiveLog(logDir);
    var t := h.Now();
    var newLog := RotatedLog(logDir, h.compact(t));
    if Stat(h.fs, activeLog).NotExist? {
      return Ok;
    }
    r := h.Rename(activeLog, newLog);
  }
}
