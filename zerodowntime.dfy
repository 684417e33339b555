/** zero-downtime.go: helpers a deployment script can use. PrepareDeployment
    creates a timestamped release directory under ".deployments";
    SwitchDeployment points the "current" link at the most recently modified
    release; HealthCheck logs a check that always passes. */
module ZeroDowntime {
  import opened Paths
  import opened Os
  import opened LogFormat
  import opened Deployment

  /** ZeroDowntimeDeployment: the project whose releases are switched and the
      directory of its deployment log. */
  datatype ZeroDowntimeDeployment = ZeroDowntimeDeployment(projectPath: string, logPath: string)

  const DeploymentsName := ".deployments"
  const CurrentName := "current"
  const SwitchInitiated := "[INFO] Zero downtime deployment switch initiated"
  const HealthPassed := "[SUCCESS] Health check passed"

  /** Modification times are Unix nanoseconds. A fresh time.Time is year 1 of
      the proleptic Gregorian calendar, this many nanoseconds before 1970. */
  const ZeroTime: int := -62135596800 * 1000000000

  function DeploymentsDir(z: ZeroDowntimeDeployment): string {
    Join(z.projectPath, DeploymentsName)
  }

  function CurrentLink(z: ZeroDowntimeDeployment): string {
    Join(z.projectPath, CurrentName)
  }

  // ---------------------------------------------------------------------
  // Choosing the latest release
  // ---------------------------------------------------------------------

  /** An entry of os.ReadDir: its name, whether it is a directory, and the
      modification time its Info() reports, or None when Info() fails. */
  datatype DirEntry = DirEntry(name: string, isDir: bool, info: Option<int>)

  /** An entry the selection looks at: a directory whose Info() succeeds. */
  predicate Candidate(e: DirEntry) {
    e.isDir && e.info.Some?
  }

  /** The state of the selection: nothing chosen yet, or the index of the
      chosen entry and its modification time. */
  datatype Choice = NoneChosen | Chosen(index: nat, time: int)

  /** The latest time seen; the zero time while nothing is chosen. */
  function TimeOf(c: Choice): int {
    if c.Chosen? then c.time else ZeroTime
  }

  /** The selection after the entries, in listing order: an entry replaces
      the choice only when it is strictly later. */
  function Latest(entries: seq<DirEntry>): (c: Choice)
    ensures c.Chosen? ==>
      c.index < |entries| && Candidate(entries[c.index]) &&
      entries[c.index].info.value == c.time && c.time > ZeroTime
    decreases |entries|
  {
    if entries == [] then NoneChosen
    else
      var c := Latest(entries[..|entries| - 1]);
      var e := entries[|entries| - 1];
      if Candidate(e) && e.info.value > TimeOf(c) then Chosen(|entries| - 1, e.info.value) else c
  }

  /** The choice is the first of the latest candidates: no candidate is later,
      every candidate before it is strictly earlier, and when nothing is
      chosen no candidate is later than the zero time. */
  lemma {:induction false} LatestIsFirstMaximum(entries: seq<DirEntry>)
    ensures forall j :: 0 <= j < |entries| && Candidate(entries[j]) ==> entries[j].info.value <= TimeOf(Latest(entries))
    ensures Latest(entries).Chosen? ==>
      forall j :: 0 <= j < Latest(entries).index && Candidate(entries[j]) ==> entries[j].info.value < Latest(entries).time
    decreases |entries|
  {
    if entries != [] {
      var init := entries[..|entries| - 1];
      LatestIsFirstMaximum(init);
      assert forall j :: 0 <= j < |init| ==> init[j] == entries[j];
    }
  }

  /** The properties of LatestIsFirstMaximum determine the choice: an entry
      that is a candidate later than the zero time, no earlier than any
      candidate and strictly later than every candidate before it is the one
      chosen. */
  lemma LatestIsUnique(entries: seq<DirEntry>, i: nat)
    requires i < |entries| && Candidate(entries[i]) && entries[i].info.value > ZeroTime
    requires forall j :: 0 <= j < |entries| && Candidate(entries[j]) ==> entries[j].info.value <= entries[i].info.value
    requires forall j :: 0 <= j < i && Candidate(entries[j]) ==> entries[j].info.value < entries[i].info.value
    ensures Latest(entries) == Chosen(i, entries[i].info.value)
  {
    LatestIsFirstMaximum(entries);
  }

  /** An empty listing, or one without directories, chooses nothing. */
  lemma NoDirectoryNoChoice(entries: seq<DirEntry>)
    requires forall j :: 0 <= j < |entries| ==> !entries[j].isDir
    ensures Latest(entries) == NoneChosen
  {
  }

  /** The loop of SwitchDeployment (zero-downtime.go:57-70): the path of the
      chosen release, "" when there is none, and its time. */
  method FindLatest(deployDir: string, files: seq<DirEntry>) returns (latestDeploy: string, latestTime: int)
    ensures latestTime == TimeOf(Latest(files))
    ensures latestDeploy == if Latest(files).Chosen? then Join(deployDir, files[Latest(files).index].name) else ""
  {
    latestDeploy, latestTime := "", ZeroTime;
    var i := 0;
    while i < |files|
      invariant 0 <= i <= |files|
      invariant latestTime == TimeOf(Latest(files[..i]))
      invariant latestDeploy == if Latest(files[..i]).Chosen? then Join(deployDir, files[Latest(files[..i]).index].name) else ""
    {
      assert files[..i + 1][..i] == files[..i];
      var file := files[i];
      if file.isDir {
        if file.info.None? {
          i := i + 1;
          continue;
        }
        if file.info.value > latestTime {
          latestTime := file.info.value;
          latestDeploy := Join(deployDir, file.name);
        }
      }
      i := i + 1;
    }
    assert files[..i] == files;
  }

  // ---------------------------------------------------------------------
  // The link switch
  // ---------------------------------------------------------------------

  /** The link switch: remove whatever the link name holds (a failure is
      ignored), then create the link. */
  function Relinked(fs: Fs, link: string, target: string): (r: Step)
    ensures r.status == Ok <==> !(link in fs && fs[link].Dir? && HasChildren(fs, link))
    ensures r.status == Ok ==> r.fs == fs[link := Link(target)]
  {
    var fs1 := if link in fs then RemoveStep(fs, link).fs else fs;
    SymlinkStep(fs1, target, link)
  }

  /** zero-downtime.go:72-84 once a release is chosen. */
  method SwitchTo(h: Host, z: ZeroDowntimeDeployment, latestDeploy: string) returns (r: Status)
    modifies h`fs, h`ticks, h`console
    ensures var step := Relinked(old(h.fs), CurrentLink(z), latestDeploy);
      if step.status.Err? then
        r == Err("failed to create symlink: " + step.status.text) &&
        h.fs == step.fs && h.ticks == old(h.ticks) && h.console == old(h.console)
      else
        r == Ok &&
        h.fs == LogWritten(step.fs, z.logPath,
          Entry(Stamp(h.clock, h.layout, old(h.ticks)), "[INFO] Switched to new deployment: " + latestDeploy)) &&
        h.ticks == old(h.ticks) + (if CanLog(step.fs, z.logPath) then 1 else 0) &&
        h.console == old(h.console) + WriteLogNote(step.fs, z.logPath)
  {
    var currentLink := CurrentLink(z);
    if currentLink in h.fs {
      var removed := h.Remove(currentLink);
    }
    var linked := h.Symlink(latestDeploy, currentLink);
    if linked.Err? {
      return Err("failed to create symlink: " + linked.text);
    }
    WriteLog(h, z.logPath, "[INFO] Switched to new deployment: " + latestDeploy);
    return Ok;
  }

  /** SwitchDeployment (zero-downtime.go:38-87). After the "switch initiated"
      entry: a listing error is returned and the link is left alone; with no
      release to choose nothing more happens and the result is nil; otherwise
      the link is switched to the chosen release. */
  method SwitchDeployment(h: Host, z: ZeroDowntimeDeployment, listing: Result<seq<DirEntry>>) returns (r: Status)
    modifies h`fs, h`ticks, h`console
    ensures var fs1 := LogWritten(old(h.fs), z.logPath, Entry(Stamp(h.clock, h.layout, old(h.ticks)), SwitchInitiated));
      var k1 := old(h.ticks) + if CanLog(old(h.fs), z.logPath) then 1 else 0;
      var c1 := old(h.console) + WriteLogNote(old(h.fs), z.logPath);
      if listing.Failure? then
        r == Err("failed to read deployments directory: " + listing.error) &&
        h.fs == fs1 && h.ticks == k1 && h.console == c1
      else if Latest(listing.value).NoneChosen? then
        r == Ok && h.fs == fs1 && h.ticks == k1 && h.console == c1
      else
        var latest := Join(DeploymentsDir(z), listing.value[Latest(listing.value).index].name);
        var step := Relinked(fs1, CurrentLink(z), latest);
        if step.status.Err? then
          r == Err("failed to create symlink: " + step.status.text) && h.fs == step.fs && h.ticks == k1 && h.console == c1
        else
          r == Ok &&
          h.fs == LogWritten(step.fs, z.logPath, Entry(Stamp(h.clock, h.layout, k1), "[INFO] Switched to new deployment: " + latest)) &&
          h.ticks == k1 + (if CanLog(step.fs, z.logPath) then 1 else 0) &&
          h.console == c1 + WriteLogNote(step.fs, z.logPath)
  {
    WriteLog(h, z.logPath, SwitchInitiated);
    var deployDir := DeploymentsDir(z);
    if listing.Failure? {
      return Err("failed to read deployments directory: " + listing.error);
    }
    var latestDeploy, latestTime := FindLatest(deployDir, listing.value);
    if latestDeploy != "" {
      r := SwitchTo(h, z, latestDeploy);
      return;
    }
    return Ok;
  }

  /** After a successful switch the "current" link points at the chosen
      release, which no other candidate is later than. */
  lemma SwitchPointsAtLatest(fs: Fs, z: ZeroDowntimeDeployment, entries: seq<DirEntry>)
    requires Latest(entries).Chosen?
    requires Relinked(fs, CurrentLink(z), Join(DeploymentsDir(z), entries[Latest(entries).index].name)).status == Ok
    ensures var i := Latest(entries).index;
      var step := Relinked(fs, CurrentLink(z), Join(DeploymentsDir(z), entries[i].name));
      CurrentLink(z) in step.fs && step.fs[CurrentLink(z)] == Link(Join(DeploymentsDir(z), entries[i].name)) &&
      entries[i].isDir &&
      forall j :: 0 <= j < |entries| && Candidate(entries[j]) ==> entries[j].info.value <= entries[i].info.value
  {
    LatestIsFirstMaximum(entries);
  }

  // ---------------------------------------------------------------------
  // Preparing a release directory, and the health check
  // ---------------------------------------------------------------------

  /** The directory of the release stamped `ts`. */
  function ReleaseDir(z: ZeroDowntimeDeployment, ts: string): string {
    Join(DeploymentsDir(z), ts)
  }

  /** PrepareDeployment's effect once the second directory's timestamp `ts`
      is read: the two os.MkdirAll calls, stopping at the first error. It
      only ever adds directories: nothing that existed is changed. */
  function Prepared(fs: Fs, z: ZeroDowntimeDeployment, ts: string): (r: Step)
    ensures forall p :: p in fs ==> p in r.fs && r.fs[p] == fs[p]
  {
    var first := MkdirAllStep(fs, DeploymentsDir(z));
    if first.status.Err? then Step(Err("failed to create deployments directory: " + first.status.text), fs)
    else
      var second := MkdirAllStep(first.fs, ReleaseDir(z, ts));
      if second.status.Err? then Step(Err("failed to create new deployment directory: " + second.status.text), first.fs)
      else Step(Ok, second.fs)
  }

  /** A successful preparation leaves both directories in place. */
  lemma PreparedMakesBoth(fs: Fs, z: ZeroDowntimeDeployment, ts: string)
    requires Prepared(fs, z, ts).status == Ok
    ensures IsDirectory(Prepared(fs, z, ts).fs, DeploymentsDir(z))
    ensures IsDirectory(Prepared(fs, z, ts).fs, ReleaseDir(z, ts))
  {
    var first := MkdirAllStep(fs, DeploymentsDir(z));
    var second := MkdirAllStep(first.fs, ReleaseDir(z, ts));
    assert IsDirectory(first.fs, DeploymentsDir(z));
    if second.fs != first.fs {
      var q := Resolve(first.fs, DeploymentsDir(z));
      assert DeploymentsDir(z) != ReleaseDir(z, ts);
      assert q in first.fs && q != ReleaseDir(z, ts);
    }
  }

  /** Preparation fails, leaving everything as it was, when ".deployments"
      is taken by something that is not a directory, and also when the
      release name is taken by a file; it succeeds when each of the two names
      is free or already a directory. */
  lemma PreparedFailure(fs: Fs, z: ZeroDowntimeDeployment, ts: string)
    ensures DeploymentsDir(z) in fs && !IsDirectory(fs, DeploymentsDir(z)) ==>
      Prepared(fs, z, ts).status.Err? && Prepared(fs, z, ts).fs == fs
    ensures ReleaseDir(z, ts) in fs && fs[ReleaseDir(z, ts)].File? ==> Prepared(fs, z, ts).status.Err?
    ensures (DeploymentsDir(z) !in fs || IsDirectory(fs, DeploymentsDir(z))) &&
            (ReleaseDir(z, ts) !in fs || IsDirectory(fs, ReleaseDir(z, ts))) ==>
      Prepared(fs, z, ts).status == Ok
  {
    var d, r := DeploymentsDir(z), ReleaseDir(z, ts);
    var first := MkdirAllStep(fs, d);
    assert d != r;
    if first.status == Ok && first.fs != fs {
      assert first.fs == fs[d := Dir];
      if IsDirectory(fs, r) {
        assert Resolve(first.fs, r) == Resolve(fs, r);
      }
    }
  }

  /** PrepareDeployment (zero-downtime.go:19-34). The clock is read only once
      the first directory exists. */
  method PrepareDeployment(h: Host, z: ZeroDowntimeDeployment) returns (r: Status)
    modifies h`fs, h`ticks
    ensures MkdirAllStep(old(h.fs), DeploymentsDir(z)).status.Err? ==>
      r == Prepared(old(h.fs), z, "").status && h.fs == old(h.fs) && h.ticks == old(h.ticks)
    ensures MkdirAllStep(old(h.fs), DeploymentsDir(z)).status == Ok ==>
      var ts := h.compact(h.clock(old(h.ticks)));
      r == Prepared(old(h.fs), z, ts).status && h.fs == Prepared(old(h.fs), z, ts).fs && h.ticks == old(h.ticks) + 1
  {
    var deployDir := DeploymentsDir(z);
    var made := h.MkdirAll(deployDir);
    if made.Err? {
      return Err("failed to create deployments directory: " + made.text);
    }
    var t := h.Now();
    var newDeployDir := ReleaseDir(z, h.compact(t));
    made := h.MkdirAll(newDeployDir);
    if made.Err? {
      return Err("failed to create new deployment directory: " + made.text);
    }
    return Ok;
  }

  /** HealthCheck (zero-downtime.go:104-112): two entries, and always nil. */
  method HealthCheck(h: Host, checkUrl: string, logPath: string) returns (r: Status)
    modifies h`fs, h`ticks, h`console
    ensures r == Ok
    ensures var k := old(h.ticks);
      var fs1 := LogWritten(old(h.fs), logPath, Entry(Stamp(h.clock, h.layout, k), "[INFO] Performing health check: " + checkUrl));
      var k1 := k + if CanLog(old(h.fs), logPath) then 1 else 0;
      h.fs == LogWritten(fs1, logPath, Entry(Stamp(h.clock, h.layout, k1), HealthPassed)) &&
      h.ticks == k1 + (if CanLog(fs1, logPath) then 1 else 0) &&
      h.console == old(h.console) + WriteLogNote(old(h.fs), logPath) + WriteLogNote(fs1, logPath)
  {
    WriteLog(h, logPath, "[INFO] Performing health check: " + checkUrl);
    WriteLog(h, logPath, HealthPassed);
    return Ok;
  }

  /** When the log can be opened, the health check appends exactly its two
      entries to it, the clock read once for each. */
  lemma HealthCheckAppendsTwo(fs: Fs, logPath: string, clock: nat -> nat, layout: nat -> string, k: nat, checkUrl: string)
    requires CanLog(fs, logPath)
    ensures var first := Entry(Stamp(clock, layout, k), "[INFO] Performing health check: " + checkUrl);
      var fs1 := LogWritten(fs, logPath, first);
      var fs2 := LogWritten(fs1, logPath, Entry(Stamp(clock, layout, k + 1), HealthPassed));
      CanLog(fs1, logPath) &&
      LinesOf(fs2, ActiveLog(logPath)) ==
        LinesOf(fs, ActiveLog(logPath)) + [first, Entry(Stamp(clock, layout, k + 1), HealthPassed)]
  {
    var first := Entry(Stamp(clock, layout, k), "[INFO] Performing health check: " + checkUrl);
    var fs1 := LogWritten(fs, logPath, first);
    LogWrittenStaysOpen(fs, logPath, first);
    LogAppendedKeepsHistory(fs, logPath, first);
    LogAppendedKeepsHistory(fs1, logPath, Entry(Stamp(clock, layout, k + 1), HealthPassed));
  }
}
