/** The operating-system services the program uses, over an abstract
    filesystem: a map from path to node. Each service is given twice: as a pure
    function of the filesystem (what the call returns and what the filesystem
    becomes) and as a method of Host, the process's view of the machine, which
    performs it. Error texts follow the shape of Go's os.PathError and
    os.LinkError ("op path: reason"). */
module Os {
  import opened Paths

  datatype Option<T> = None | Some(value: T)

  /** The error value of a Go call: nil (Ok) or an error with its text. */
  datatype Status = Ok | Err(text: string)

  datatype Result<T> = Success(value: T) | Failure(error: string)

  /** Permission bits. Octal literals are written in hexadecimal. */
  type Mode = bv16
  const ExecBits: Mode := 0x49        // 0111
  const NewFileMode: Mode := 0x1A4    // 0644, os.OpenFile with O_CREATE
  const ExecutableMode: Mode := 0x1ED // 0755, the chmod target and os.MkdirAll's mode
  const DirMode: Mode := 0x1ED        // permission bits reported for a directory
  const TempFileMode: Mode := 0x180   // 0600, os.CreateTemp

  /** A file holds its permission bits and its lines; a symbolic link holds its target. */
  datatype Node = File(mode: Mode, lines: seq<string>) | Dir | Link(target: string)

  type Fs = map<string, Node>

  const ENOENT := "no such file or directory"
  const ENOTDIR := "not a directory"
  const EISDIR := "is a directory"
  const EEXIST := "file exists"
  const ELOOP := "too many levels of symbolic links"
  const ENOTEMPTY := "directory not empty"

  function PathError(op: string, path: string, reason: string): string {
    op + " " + path + ": " + reason
  }

  function LinkError(op: string, src: string, dst: string, reason: string): string {
    op + " " + src + " " + dst + ": " + reason
  }

  /** Following a symbolic link, one level. A link to a link is reported as a
      link loop (ELOOP) by Stat and by an open. Links are followed at the last
      element of a path only. */
  function Resolve(fs: Fs, p: string): string {
    if p in fs && fs[p].Link? then fs[p].target else p
  }

  /** Whether some directory on the way to p is a regular file, so that a
      lookup of p fails with ENOTDIR rather than ENOENT. */
  predicate UnderFile(fs: Fs, p: string)
    decreases |p|
  {
    p != [] && ((Parent(p) in fs && fs[Parent(p)].File?) || UnderFile(fs, Parent(p)))
  }

  /** UnderFile looks only at which paths hold regular files. */
  lemma {:induction false} UnderFileKept(fs: Fs, g: Fs, p: string)
    requires forall x :: x in fs && fs[x].File? <==> x in g && g[x].File?
    ensures UnderFile(fs, p) == UnderFile(g, p)
    decreases |p|
  {
    if p != [] {
      UnderFileKept(fs, g, Parent(p));
    }
  }

  /** os.Stat: the mode of what the path names after following a link, or a
      not-exist error, or another error (ENOTDIR below a regular file, ELOOP). */
  datatype StatResult = Found(mode: Mode) | NotExist | StatFailed(reason: string)

  function Stat(fs: Fs, p: string): (r: StatResult)
    ensures p !in fs && !UnderFile(fs, p) ==> r == NotExist
    ensures p !in fs && UnderFile(fs, p) ==> r == StatFailed(ENOTDIR)
    ensures p in fs && fs[p].File? ==> r == Found(fs[p].mode)
  {
    var q := Resolve(fs, p);
    if q !in fs then (if UnderFile(fs, q) then StatFailed(ENOTDIR) else NotExist)
    else match fs[q]
      case File(m, _) => Found(m)
      case Dir => Found(DirMode)
      case Link(_) => StatFailed(ELOOP)
  }

  /** The reason a Stat result gives for "this is not a directory". */
  function NotDirReason(r: StatResult): string {
    match r
    case NotExist => ENOENT
    case StatFailed(reason) => reason
    case Found(_) => ENOTDIR
  }

  predicate IsDirectory(fs: Fs, p: string) {
    Resolve(fs, p) in fs && fs[Resolve(fs, p)].Dir?
  }

  /** The path names a regular file, possibly through a link. */
  predicate IsFile(fs: Fs, p: string) {
    Resolve(fs, p) in fs && fs[Resolve(fs, p)].File?
  }

  /** A call's error value together with the filesystem it leaves. */
  datatype Step = Step(status: Status, fs: Fs)

  /** os.Chdir: succeeds exactly on a directory (possibly reached through a link). */
  function ChdirStatus(fs: Fs, p: string): (r: Status)
    ensures r == Ok <==> IsDirectory(fs, p)
  {
    if IsDirectory(fs, p) then Ok else Err(PathError("chdir", p, NotDirReason(Stat(fs, p))))
  }

  /** The directory an open with O_CREATE makes a new file in: the joined
      directory, or the directory of a link's missing target. */
  function CreateDir(fs: Fs, dir: string, name: string): string {
    if Resolve(fs, Join(dir, name)) == Join(dir, name) then dir
    else Parent(Resolve(fs, Join(dir, name)))
  }

  /** Whether os.OpenFile(Join(dir, name), O_CREATE|O_WRONLY|...) succeeds. A
      link at that path is followed one level; then an existing regular file
      opens, and a missing name is created when its directory exists. */
  function OpenStatus(fs: Fs, dir: string, name: string): (r: Status)
    ensures r == Ok <==>
      IsFile(fs, Join(dir, name)) ||
      (Resolve(fs, Join(dir, name)) !in fs && IsDirectory(fs, CreateDir(fs, dir, name)))
  {
    var p := Join(dir, name);
    var q := Resolve(fs, p);
    if q in fs then
      match fs[q]
      case File(_, _) => Ok
      case Dir => Err(PathError("open", p, EISDIR))
      case Link(_) => Err(PathError("open", p, ELOOP))
    else if IsDirectory(fs, CreateDir(fs, dir, name)) then Ok
    else Err(PathError("open", p, NotDirReason(Stat(fs, CreateDir(fs, dir, name)))))
  }

  /** The file an O_CREATE open of p leaves, at the path p resolves to: an
      existing file keeps its mode, a new one has mode 0644; with O_TRUNC its
      lines are dropped. */
  function Opened(fs: Fs, p: string, truncate: bool): (r: Fs)
    ensures r.Keys == fs.Keys + {Resolve(fs, p)}
    ensures Resolve(r, p) == Resolve(fs, p)
    ensures IsFile(r, p)
    ensures LinesOf(r, p) == if truncate then [] else LinesOf(fs, p)
    ensures forall q :: q in fs && q != Resolve(fs, p) ==> r[q] == fs[q]
  {
    var q := Resolve(fs, p);
    if q in fs && fs[q].File? then
      fs[q := File(fs[q].mode, if truncate then [] else fs[q].lines)]
    else fs[q := File(NewFileMode, [])]
  }

  /** One write of a line to an open file; a path that no longer leads to a
      file takes no write. */
  function Appended(fs: Fs, p: string, line: string): (r: Fs)
    ensures IsFile(fs, p) ==>
      r == fs[Resolve(fs, p) := File(fs[Resolve(fs, p)].mode, fs[Resolve(fs, p)].lines + [line])]
    ensures !IsFile(fs, p) ==> r == fs
  {
    var q := Resolve(fs, p);
    if q in fs && fs[q].File? then fs[q := File(fs[q].mode, fs[q].lines + [line])] else fs
  }

  /** The lines of the file p leads to, or none when it leads to no file. */
  function LinesOf(fs: Fs, p: string): seq<string> {
    if IsFile(fs, p) then fs[Resolve(fs, p)].lines else []
  }

  /** The filesystem with the file p leads to holding `lines` (no change when
      p leads to no file). */
  function SetLines(fs: Fs, p: string, lines: seq<string>): (r: Fs)
    ensures r.Keys == fs.Keys
    ensures forall q :: q in fs && q != Resolve(fs, p) ==> r[q] == fs[q]
  {
    var q := Resolve(fs, p);
    if q in fs && fs[q].File? then fs[q := File(fs[q].mode, lines)] else fs
  }

  lemma SetLinesOwn(fs: Fs, p: string)
    ensures SetLines(fs, p, LinesOf(fs, p)) == fs
  {
  }

  /** Writing a line to a file whose lines were replaced by `lines` is the
      same as replacing them by `lines` followed by that line. */
  lemma AppendedSetLines(fs: Fs, p: string, lines: seq<string>, line: string)
    ensures Appended(SetLines(fs, p, lines), p, line) == SetLines(fs, p, lines + [line])
  {
  }

  /** Replacing a file's lines changes no answer of Stat, Resolve or Chdir. */
  lemma SetLinesKeepsShape(fs: Fs, p: string, lines: seq<string>, q: string)
    ensures Resolve(SetLines(fs, p, lines), q) == Resolve(fs, q)
    ensures IsFile(SetLines(fs, p, lines), q) == IsFile(fs, q)
    ensures Stat(SetLines(fs, p, lines), q) == Stat(fs, q)
    ensures IsDirectory(SetLines(fs, p, lines), q) == IsDirectory(fs, q)
    ensures ChdirStatus(SetLines(fs, p, lines), q) == ChdirStatus(fs, q)
  {
    UnderFileKept(fs, SetLines(fs, p, lines), Resolve(fs, q));
  }

  /** A mode change and a change of lines commute. */
  lemma ChmodSetLines(fs: Fs, p: string, lines: seq<string>, q: string, mode: Mode)
    ensures Chmodded(SetLines(fs, p, lines), q, mode) == SetLines(Chmodded(fs, q, mode), p, lines)
  {
    SetLinesKeepsShape(fs, p, lines, q);
  }

  /** os.Rename: fails when the source is missing (ENOTDIR below a regular
      file, ENOENT otherwise) or the destination is a directory; otherwise the
      node moves, unchanged, to the new name. */
  function RenameStep(fs: Fs, src: string, dst: string): (r: Step)
    ensures r.status == Ok <==> src in fs && !(dst in fs && fs[dst].Dir?)
    ensures r.status == Ok ==> dst in r.fs && r.fs[dst] == fs[src]
    ensures r.status == Ok && src != dst ==> src !in r.fs
    ensures r.status != Ok ==> r.fs == fs
  {
    if src !in fs then Step(Err(LinkError("rename", src, dst, NotDirReason(Stat(fs, src)))), fs)
    else if dst in fs && fs[dst].Dir? then Step(Err(LinkError("rename", src, dst, EEXIST)), fs)
    else if src == dst then Step(Ok, fs)
    else Step(Ok, (fs - {src})[dst := fs[src]])
  }

  predicate HasChildren(fs: Fs, p: string) {
    exists q :: q in fs && HasPrefix(q, p + "/")
  }

  /** os.Remove: removes a file, a link or an empty directory. */
  function RemoveStep(fs: Fs, p: string): (r: Step)
    ensures r.status == Ok <==> p in fs && !(fs[p].Dir? && HasChildren(fs, p))
    ensures r.status == Ok ==> r.fs == fs - {p}
    ensures r.status != Ok ==> r.fs == fs
  {
    if p !in fs then Step(Err(PathError("remove", p, NotDirReason(Stat(fs, p)))), fs)
    else if fs[p].Dir? && HasChildren(fs, p) then Step(Err(PathError("remove", p, ENOTEMPTY)), fs)
    else Step(Ok, fs - {p})
  }

  /** os.MkdirAll: nothing to do for an existing directory; an error when the
      path exists as something else; otherwise the directory is created. */
  function MkdirAllStep(fs: Fs, p: string): (r: Step)
    ensures r.status == Ok <==> IsDirectory(fs, p) || p !in fs
    ensures r.status == Ok ==> IsDirectory(r.fs, p)
    ensures r.fs == fs || (p !in fs && r.fs == fs[p := Dir])
  {
    if IsDirectory(fs, p) then Step(Ok, fs)
    else if p in fs then
      (if Stat(fs, p).Found? then Step(Err(PathError("mkdir", p, ENOTDIR)), fs)
       else Step(Err(PathError("mkdir", p, EEXIST)), fs))
    else Step(Ok, fs[p := Dir])
  }

  /** os.Symlink: fails when the link name is taken. */
  function SymlinkStep(fs: Fs, target: string, link: string): (r: Step)
    ensures r.status == Ok <==> link !in fs
    ensures r.status == Ok ==> r.fs == fs[link := Link(target)]
    ensures r.status != Ok ==> r.fs == fs
  {
    if link in fs then Step(Err(LinkError("symlink", target, link, EEXIST)), fs)
    else Step(Ok, fs[link := Link(target)])
  }

  /** os.ReadFile: the lines of the file the path names; a missing file is
      reported as Stat reports it (ENOTDIR below a regular file, ENOENT
      otherwise). */
  function ReadFile(fs: Fs, p: string): (r: Result<seq<string>>)
    ensures r.Success? <==> Resolve(fs, p) in fs && fs[Resolve(fs, p)].File?
    ensures r.Success? ==> r.value == fs[Resolve(fs, p)].lines
  {
    var q := Resolve(fs, p);
    if q !in fs then Failure(PathError("open", p, NotDirReason(Stat(fs, p))))
    else match fs[q]
      case File(_, lines) => Success(lines)
      case Dir => Failure(PathError("read", p, EISDIR))
      case Link(_) => Failure(PathError("open", p, ELOOP))
  }

  /** A missing path is reported as open(2), rename(2) and unlink(2) report
      it: "not a directory" when a regular file stands on the way, "no such
      file or directory" otherwise. */
  lemma MissingPathReasons(fs: Fs, p: string, dst: string)
    ensures Resolve(fs, p) !in fs ==>
      ReadFile(fs, p) == Failure(PathError("open", p, if UnderFile(fs, Resolve(fs, p)) then ENOTDIR else ENOENT))
    ensures p !in fs ==>
      RenameStep(fs, p, dst) == Step(Err(LinkError("rename", p, dst, if UnderFile(fs, p) then ENOTDIR else ENOENT)), fs)
    ensures p !in fs ==>
      RemoveStep(fs, p) == Step(Err(PathError("remove", p, if UnderFile(fs, p) then ENOTDIR else ENOENT)), fs)
  {
  }

  /** Name of the file os.CreateTemp(dir, "deploy_task_*.json") makes when the
      random part is `random`. */
  function TempName(dir: string, random: string): string {
    Join(dir, "deploy_task_" + random + ".json")
  }

  /** os.CreateTemp: a new empty file with mode 0600 in an existing directory. */
  function CreateTempStep(fs: Fs, dir: string, random: string): (r: Step)
    ensures r.status == Ok <==> IsDirectory(fs, dir) && TempName(dir, random) !in fs
    ensures r.status == Ok ==> r.fs == fs[TempName(dir, random) := File(TempFileMode, [])]
    ensures r.status != Ok ==> r.fs == fs
  {
    var p := TempName(dir, random);
    if !IsDirectory(fs, dir) then Step(Err(PathError("open", p, NotDirReason(Stat(fs, dir)))), fs)
    else if p in fs then Step(Err(PathError("open", p, EEXIST)), fs)
    else Step(Ok, fs[p := File(TempFileMode, [])])
  }

  /** The effect of a successful os.Chmod(p, mode): the file the path names
      takes the new mode. */
  function Chmodded(fs: Fs, p: string, mode: Mode): (r: Fs)
    ensures r.Keys == fs.Keys
    ensures forall q :: q in fs && q != Resolve(fs, p) ==> r[q] == fs[q]
  {
    var q := Resolve(fs, p);
    if q in fs && fs[q].File? then fs[q := File(mode, fs[q].lines)] else fs
  }

  /** A process the program started: its argument vector, working directory,
      the variables added to its environment, and whether it was waited on. */
  datatype Command = Command(argv: seq<string>, dir: string, env: seq<string>, waited: bool)

  /** The value a child process reads for `key` from its environment list:
      the last "key=value" entry wins, as os/exec keeps the last of duplicate
      keys. */
  function EnvValue(env: seq<string>, key: string): (v: Option<string>)
    ensures v.Some? ==> key + "=" + v.value in env
    decreases |env|
  {
    if env == [] then None
    else
      var last := env[|env| - 1];
      if HasPrefix(last, key + "=") then
        assert last == key + "=" + last[|key| + 1..];
        Some(last[|key| + 1..])
      else EnvValue(env[..|env| - 1], key)
  }

  /** Variables appended to the inherited environment override any inherited
      value of the same key. */
  lemma {:induction false} AddedVariablesWin(inherited: seq<string>, added: seq<string>, key: string)
    requires EnvValue(added, key).Some?
    ensures EnvValue(inherited + added, key) == EnvValue(added, key)
    decreases |added|
  {
    var all := inherited + added;
    assert all[|all| - 1] == added[|added| - 1];
    if !HasPrefix(added[|added| - 1], key + "=") {
      assert all[..|all| - 1] == inherited + added[..|added| - 1];
      AddedVariablesWin(inherited, added[..|added| - 1], key);
    }
  }

  /** The machine as one process of the program sees it. Time is given from
      outside: `clock(k)` is the Unix-nanosecond value of the k-th reading of
      the clock, `layout` renders a reading as "2006-01-02 15:04:05" and
      `compact` as "20060102_150405"; `ticks` counts the readings the program
      takes itself (the reading the `log` package takes to stamp a line is not
      counted). Every path is a key of `fs`: `cwd` is recorded, not used to
      resolve relative paths. */
  class Host {
    var fs: Fs
    var cwd: string
    var ticks: nat
    var console: seq<string>
    var procs: seq<Command>
    const clock: nat -> nat
    const layout: nat -> string
    const compact: nat -> string

    constructor (fs0: Fs, cwd0: string, clock: nat -> nat, layout: nat -> string, compact: nat -> string)
      ensures fs == fs0 && cwd == cwd0 && ticks == 0 && console == [] && procs == []
      ensures this.clock == clock && this.layout == layout && this.compact == compact
    {
      fs, cwd, ticks, console, procs := fs0, cwd0, 0, [], [];
      this.clock, this.layout, this.compact := clock, layout, compact;
    }

    /** time.Now(). */
    method Now() returns (t: nat)
      modifies this`ticks
      ensures t == clock(old(ticks)) && ticks == old(ticks) + 1
    {
      t := clock(ticks);
      ticks := ticks + 1;
    }

    /** A line printed to standard output or standard error, or by the `log`
        package (without the date and time `log` puts in front of it). */
    method Say(line: string)
      modifies this`console
      ensures console == old(console) + [line]
    {
      console := console + [line];
    }

    method Start(c: Command)
      modifies this`procs
      ensures procs == old(procs) + [c]
    {
      procs := procs + [c];
    }

    method Chdir(p: string) returns (r: Status)
      modifies this`cwd
      ensures r == ChdirStatus(fs, p)
      ensures cwd == if r == Ok then p else old(cwd)
    {
      r := ChdirStatus(fs, p);
      if r == Ok {
        cwd := p;
      }
    }

    /** os.OpenFile(Join(dir, name), O_CREATE|O_WRONLY|(O_TRUNC or O_APPEND), 0644). */
    method Open(dir: string, name: string, truncate: bool) returns (r: Status)
      modifies this`fs
      ensures r == OpenStatus(old(fs), dir, name)
      ensures fs == if r == Ok then Opened(old(fs), Join(dir, name), truncate) else old(fs)
    {
      r := OpenStatus(fs, dir, name);
      if r == Ok {
        fs := Opened(fs, Join(dir, name), truncate);
      }
    }

    method Append(p: string, line: string)
      modifies this`fs
      ensures fs == Appended(old(fs), p, line)
    {
      fs := Appended(fs, p, line);
    }

    /** os.Chmod, whose outcome (permission checks) is given by `outcome`. */
    method Chmod(p: string, mode: Mode, outcome: Status) returns (r: Status)
      modifies this`fs
      ensures r == outcome
      ensures fs == if outcome == Ok then Chmodded(old(fs), p, mode) else old(fs)
    {
      r := outcome;
      if outcome == Ok {
        fs := Chmodded(fs, p, mode);
      }
    }

    method Rename(src: string, dst: string) returns (r: Status)
      modifies this`fs
      ensures r == RenameStep(old(fs), src, dst).status
      ensures fs == RenameStep(old(fs), src, dst).fs
    {
      var s := RenameStep(fs, src, dst);
      r, fs := s.status, s.fs;
    }

    method Remove(p: string) returns (r: Status)
      modifies this`fs
      ensures r == RemoveStep(old(fs), p).status
      ensures fs == RemoveStep(old(fs), p).fs
    {
      var s := RemoveStep(fs, p);
      r, fs := s.status, s.fs;
    }

    method MkdirAll(p: string) returns (r: Status)
      modifies this`fs
      ensures r == MkdirAllStep(old(fs), p).status
      ensures fs == MkdirAllStep(old(fs), p).fs
    {
      var s := MkdirAllStep(fs, p);
      r, fs := s.status, s.fs;
    }

    method Symlink(target: string, link: string) returns (r: Status)
      modifies this`fs
      ensures r == SymlinkStep(old(fs), target, link).status
      ensures fs == SymlinkStep(old(fs), target, link).fs
    {
      var s := SymlinkStep(fs, target, link);
      r, fs := s.status, s.fs;
    }

    method CreateTemp(dir: string, random: string) returns (r: Status)
      modifies this`fs
      ensures r == CreateTempStep(old(fs), dir, random).status
      ensures fs == CreateTempStep(old(fs), dir, random).fs
    {
      var s := CreateTempStep(fs, dir, random);
      r, fs := s.status, s.fs;
    }

    /** File.Write of `lines` to the file at `p` opened by CreateTemp; the
        outcome (disk full, I/O error) is given by `outcome`. */
    method Write(p: string, lines: seq<string>, outcome: Status) returns (r: Status)
      modifies this`fs
      ensures r == outcome
      ensures fs == if outcome == Ok && p in old(fs) && old(fs)[p].File?
                    then old(fs)[p := File(old(fs)[p].mode, old(fs)[p].lines + lines)]
                    else old(fs)
    {
      r := outcome;
      if outcome == Ok && p in fs && fs[p].File? {
        fs := fs[p := File(fs[p].mode, fs[p].lines + lines)];
      }
    }
  }
}
