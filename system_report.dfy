/**
 * The system resource monitor tool: given a request naming a resource, it
 * reports CPU times, memory, disk space per mounted device, processes,
 * Docker containers and the `uptime` line, or an error.
 *
 * What the script reads from the machine (the first line of /proc/stat, the
 * lines of /proc/meminfo and /proc/mounts, the /proc directory, the output of
 * the docker and uptime commands, the clock) is a `Machine` value. Numbers
 * are reported in the unit the machine gives them (ticks, KB, bytes): the
 * floating-point division and two-decimal formatting of the script are not
 * part of this model.
 */
module SystemReport {
  import opened Wrappers
  import opened Text

  /** The value of the request's "resource" member: a string, or any other JSON value and its Python str(). */
  datatype Value = Str(s: string) | Other(truthy: bool, text: string)

  /** The request after JSON decoding. */
  datatype Request =
    | InvalidJson                      // json.loads rejected the text
    | NotAnObject                      // valid JSON without a `get` method (a list, a number, ...)
    | Object(resource: Option<Value>)  // None: no "resource" member

  /** What running a subprocess with check=True gave. */
  datatype CommandResult =
    | NotFound             // FileNotFoundError: the program is not installed
    | CallFailed           // CalledProcessError: it exited with a non-zero status
    | Stdout(text: string)

  /** The owner of a process directory. */
  datatype Owner =
    | Gone                 // the directory vanished: FileNotFoundError, the process is skipped
    | NoSuchUser           // the uid has no password entry: KeyError
    | User(name: string)

  datatype DiskUsage = DiskUsage(total: int, used: int, free: int)

  /** A date and time of day as strptime parses it, without a time zone. */
  datatype CivilTime = CivilTime(year: int, month: int, day: int, hour: int, minute: int, second: int)

  datatype Machine = Machine(
    statLine: string,                          // the first line of /proc/stat
    meminfo: seq<string>,                      // the lines of /proc/meminfo
    mounts: seq<string>,                       // the lines of /proc/mounts
    diskUsage: string -> Option<DiskUsage>,    // shutil.disk_usage; None when it raises
    procEntries: seq<string>,                  // os.listdir("/proc"), in its order
    procStat: string -> Option<string>,        // first line of /proc/<pid>/stat; None when the process is gone
    procOwner: string -> Owner,                // os.stat + pwd.getpwuid of /proc/<pid>
    parseInt: string -> Option<int>,           // Python's int(); None when it raises ValueError
    dockerPs: CommandResult,
    dockerStats: CommandResult,
    dockerInspect: string -> CommandResult,    // docker inspect of one container id
    strptime: string -> Option<CivilTime>,     // strptime with "%Y-%m-%dT%H:%M:%S"; None on ValueError
    now: int,                                  // time.time(), whole seconds
    zoneWest: int,                             // the local zone's offset in seconds west of UTC, as mktime applies it
    uptime: CommandResult)

  /** One line of the report on standard output. */
  datatype ReportLine =
    | TotalCpuTime(ticks: int)
    | IdleCpuTime(ticks: int)
    | TotalMemory(kb: int)
    | UsedMemory(kb: int)
    | FreeMemory(kb: int)
    | MountPoint(path: string)
    | TotalDisk(bytes: int)
    | UsedDisk(bytes: int)
    | FreeDisk(bytes: int)
    | ProcessHeader
    | ProcessRow(pid: string, user: string, name: string, state: string, userTicks: int, systemTicks: int)
    | ContainerHeader
    | ContainerRow(info: string, cpu: string, memory: string, uptime: string)
    | NoContainers
    | UptimeInfo(text: string)

  /** How the script ends. */
  datatype Ending =
    | Done                     // exit status 0
    | Failed(error: Error)     // Message(error) on standard error, exit status 1
    | Crashed                  // an uncaught exception, exit status 1

  /** The lines printed and how the run ended. */
  datatype Report = Report(lines: seq<ReportLine>, ending: Ending)

  /** The errors the script reports before exiting with status 1. */
  datatype Error =
    | BadJson
    | ResourceRequired
    | DockerMissing
    | DockerFailed
    | UptimeMissing
    | UptimeFailed
    | UnknownResource(text: string)

  /** The text printed on standard error for each error. */
  function Message(e: Error): string {
    match e
    case BadJson => "Error: Invalid JSON input."
    case ResourceRequired => "Error: 'resource' is required in the input JSON."
    case DockerMissing => "Error: Docker is not installed or not in PATH."
    case DockerFailed => "Error: Failed to run Docker command."
    case UptimeMissing => "Error: 'uptime' command is not found."
    case UptimeFailed => "Error: Failed to run 'uptime' command."
    case UnknownResource(t) =>
      "Error: Unknown resource type '" + t
        + "'. Supported types are 'cpu', 'memory', 'disk', 'processes', 'docker', 'all', 'loadavg'."
  }

  function ValueText(v: Value): string {
    match v
    case Str(s) => s
    case Other(_, t) => t
  }

  /** Python's `not resource_type`. */
  predicate Falsy(res: Option<Value>) {
    res.None? || res.value == Str("") || (res.value.Other? && !res.value.truthy)
  }

  /** The resources the script knows, by their names in a request. */
  datatype Resource = Cpu | Memory | Disk | Processes | Docker | All | LoadAvg | Uptime

  function ResourceOf(v: Value): Option<Resource> {
    match v
    case Other(_, _) => None
    case Str(s) =>
      match s
      case "cpu" => Some(Cpu)
      case "memory" => Some(Memory)
      case "disk" => Some(Disk)
      case "processes" => Some(Processes)
      case "docker" => Some(Docker)
      case "all" => Some(All)
      case "loadavg" => Some(LoadAvg)
      case "uptime" => Some(Uptime)
      case _ => None
  }

  /** The section `name` runs for `v`. */
  predicate Selects(r: Option<Resource>, section: Resource) {
    r == Some(section) || r == Some(All)
  }

  const Empty: Report := Report([], Done)

  /** Run `a`, then `b` if `a` did not stop the script. */
  function Then(a: Report, b: Report): Report {
    if a.ending.Done? then Report(a.lines + b.lines, b.ending) else a
  }

  function When(b: bool, r: Report): Report {
    if b then r else Empty
  }

  // ---------------------------------------------------------------------
  // Loops over the lines of a file or a command's output

  /** What one pass of a loop does: nothing, print lines, or stop the script. */
  datatype Step = Skip | Emit(out: seq<ReportLine>) | Stop(ending: Ending)

  /** A loop over `items` whose body is `step`. */
  function Run(items: seq<string>, step: string -> Step): Report {
    if items == [] then Empty
    else
      match step(items[0])
      case Skip => Run(items[1..], step)
      case Emit(out) => Then(Report(out, Done), Run(items[1..], step))
      case Stop(e) => Report([], e)
  }

  /** Every printed line comes from a pass over some item that printed it. */
  lemma {:induction false} RunEmitted(items: seq<string>, step: string -> Step, l: ReportLine)
    requires l in Run(items, step).lines
    ensures exists k :: 0 <= k < |items| && step(items[k]).Emit? && l in step(items[k]).out
  {
    if items != [] {
      var rest := Run(items[1..], step);
      if l in rest.lines {
        RunEmitted(items[1..], step, l);
        var k :| 0 <= k < |items[1..]| && step(items[1..][k]).Emit? && l in step(items[1..][k]).out;
        assert items[k + 1] == items[1..][k];
      } else {
        assert step(items[0]).Emit? && l in step(items[0]).out;
      }
    }
  }

  /** The loop itself: lines are printed as they are produced, and a stop ends it. */
  method RunSteps(items: seq<string>, step: string -> Step) returns (lines: seq<ReportLine>, ending: Ending)
    ensures Report(lines, ending) == Run(items, step)
  {
    lines := [];
    for k := 0 to |items|
      invariant Run(items, step) == Then(Report(lines, Done), Run(items[k..], step))
    {
      assert items[k..][1..] == items[k + 1..];
      match step(items[k]) {
        case Skip =>
        case Emit(out) =>
          assert lines + (out + Run(items[k + 1..], step).lines) == (lines + out) + Run(items[k + 1..], step).lines;
          lines := lines + out;
        case Stop(e) =>
          return lines, e;
      }
    }
    assert lines + [] == lines;
    ending := Done;
  }

  // ---------------------------------------------------------------------
  // CPU (/proc/stat)

  /** Python's int() over every item; None if one of them raises. */
  function ParseInts(xs: seq<string>, parseInt: string -> Option<int>): (r: Option<seq<int>>)
    ensures r.Some? <==> forall k :: 0 <= k < |xs| ==> parseInt(xs[k]).Some?
    ensures r.Some? ==> |r.value| == |xs| && forall k :: 0 <= k < |xs| ==> r.value[k] == parseInt(xs[k]).value
  {
    if xs == [] then Some([])
    else
      match parseInt(xs[0])
      case None => None
      case Some(v) =>
        match ParseInts(xs[1..], parseInt)
        case None => None
        case Some(vs) => Some([v] + vs)
  }

  function Sum(xs: seq<int>): int {
    if xs == [] then 0 else xs[0] + Sum(xs[1..])
  }

  /** Python's `xs[1:]`, which is empty for an empty list. */
  function AfterFirst(xs: seq<string>): seq<string> {
    if xs == [] then [] else xs[1..]
  }

  /** The CPU section: the sum of all times on the "cpu " line and its fourth time (idle). */
  function CpuReport(m: Machine): Report {
    if !StartsWith(m.statLine, "cpu ") then Empty
    else
      match ParseInts(AfterFirst(PyFields(m.statLine)), m.parseInt)
      case None => Report([], Crashed)
      case Some(times) =>
        if |times| < 4 then Report([], Crashed)
        else Report([TotalCpuTime(Sum(times)), IdleCpuTime(times[3])], Done)
  }

  /**
   * The CPU section prints exactly when the first line starts with "cpu ":
   * the total is the sum of the numbers after the label and the idle time is
   * the fourth of them, which is at most the total when no time is negative.
   */
  lemma CpuReportShape(m: Machine)
    ensures !StartsWith(m.statLine, "cpu ") ==> CpuReport(m) == Empty
    ensures CpuReport(m).ending.Done? && CpuReport(m).lines != [] ==>
      var times := ParseInts(AfterFirst(PyFields(m.statLine)), m.parseInt).value;
      && StartsWith(m.statLine, "cpu ")
      && |times| >= 4
      && CpuReport(m).lines == [TotalCpuTime(Sum(times)), IdleCpuTime(times[3])]
      && ((forall k :: 0 <= k < |times| ==> times[k] >= 0) ==> times[3] <= Sum(times))
  {
    if StartsWith(m.statLine, "cpu ") {
      var parsed := ParseInts(AfterFirst(PyFields(m.statLine)), m.parseInt);
      if parsed.Some? && |parsed.value| >= 4 && forall k :: 0 <= k < |parsed.value| ==> parsed.value[k] >= 0 {
        SumBounds(parsed.value, 3);
      }
    }
  }

  /** With no negative numbers, each one is at most the sum. */
  lemma {:induction false} SumBounds(xs: seq<int>, k: nat)
    requires k < |xs| && forall j :: 0 <= j < |xs| ==> xs[j] >= 0
    ensures 0 <= xs[k] <= Sum(xs)
  {
    if k > 0 {
      SumBounds(xs[1..], k - 1);
    } else {
      SumNonNegative(xs[1..]);
    }
  }

  lemma {:induction false} SumNonNegative(xs: seq<int>)
    requires forall j :: 0 <= j < |xs| ==> xs[j] >= 0
    ensures Sum(xs) >= 0
  {
    if xs != [] {
      SumNonNegative(xs[1..]);
    }
  }

  // ---------------------------------------------------------------------
  // Memory (/proc/meminfo)

  datatype MemEntry = MemEntry(key: string, kb: int)

  predicate IsColon(c: char) {
    c == ':'
  }

  /** One meminfo line: its first field without trailing colons and its second field as a number. */
  function Entry(line: string, parseInt: string -> Option<int>): Option<MemEntry> {
    var parts := PyFields(line);
    if |parts| < 2 then None
    else
      match parseInt(parts[1])
      case None => None
      case Some(v) => Some(MemEntry(TrimRightBy(parts[0], IsColon), v))
  }

  /** The table built from `lines` on top of `acc`; a later line overrides an earlier one. */
  function MemTable(lines: seq<string>, parseInt: string -> Option<int>, acc: map<string, int>): Option<map<string, int>> {
    if lines == [] then Some(acc)
    else
      match Entry(lines[0], parseInt)
      case None => None
      case Some(e) => MemTable(lines[1..], parseInt, acc[e.key := e.kb])
  }

  function MemInfo(lines: seq<string>, parseInt: string -> Option<int>): Option<map<string, int>> {
    MemTable(lines, parseInt, map[])
  }

  /** Every line has a key and a number. */
  predicate WellFormed(lines: seq<string>, parseInt: string -> Option<int>) {
    forall k :: 0 <= k < |lines| ==> Entry(lines[k], parseInt).Some?
  }

  /** The table is built exactly when every line is well formed; otherwise the script crashes. */
  lemma {:induction false} MemTableBuilt(lines: seq<string>, parseInt: string -> Option<int>, acc: map<string, int>)
    ensures MemTable(lines, parseInt, acc).Some? <==> WellFormed(lines, parseInt)
  {
    if lines != [] {
      var rest := lines[1..];
      assert forall k :: 1 <= k < |lines| ==> lines[k] == rest[k - 1];
      if Entry(lines[0], parseInt).Some? {
        var e := Entry(lines[0], parseInt).value;
        MemTableBuilt(rest, parseInt, acc[e.key := e.kb]);
      }
    }
  }

  /**
   * The keys of the table are those of `acc` and of the lines; a key no line
   * names keeps its value from `acc`.
   */
  lemma {:induction false} MemTableKeys(lines: seq<string>, parseInt: string -> Option<int>, acc: map<string, int>, key: string)
    requires WellFormed(lines, parseInt)
    ensures MemTable(lines, parseInt, acc).Some?
    ensures key in MemTable(lines, parseInt, acc).value <==>
      key in acc || exists k :: 0 <= k < |lines| && Entry(lines[k], parseInt).value.key == key
    ensures (forall k :: 0 <= k < |lines| ==> Entry(lines[k], parseInt).value.key != key) && key in acc ==>
      MemTable(lines, parseInt, acc).value[key] == acc[key]
  {
    if lines != [] {
      var rest := lines[1..];
      assert forall k :: 1 <= k < |lines| ==> lines[k] == rest[k - 1];
      var e := Entry(lines[0], parseInt).value;
      MemTableKeys(rest, parseInt, acc[e.key := e.kb], key);
    }
  }

  /** A key holds the number of the last line that names it. */
  lemma {:induction false} MemTableLastWins(lines: seq<string>, parseInt: string -> Option<int>, acc: map<string, int>, k: nat)
    requires WellFormed(lines, parseInt) && k < |lines|
    requires forall j :: k < j < |lines| ==> Entry(lines[j], parseInt).value.key != Entry(lines[k], parseInt).value.key
    ensures MemTable(lines, parseInt, acc).Some?
    ensures var e := Entry(lines[k], parseInt).value;
      e.key in MemTable(lines, parseInt, acc).value && MemTable(lines, parseInt, acc).value[e.key] == e.kb
  {
    var rest := lines[1..];
    assert forall j :: 1 <= j < |lines| ==> lines[j] == rest[j - 1];
    var e := Entry(lines[0], parseInt).value;
    if k == 0 {
      MemTableKeys(rest, parseInt, acc[e.key := e.kb], e.key);
    } else {
      MemTableLastWins(rest, parseInt, acc[e.key := e.kb], k - 1);
    }
  }

  /** Build the meminfo table line by line. */
  method BuildMemInfo(lines: seq<string>, parseInt: string -> Option<int>) returns (table: Option<map<string, int>>)
    ensures table == MemInfo(lines, parseInt)
  {
    var t := map[];
    for k := 0 to |lines|
      invariant MemTable(lines[k..], parseInt, t) == MemInfo(lines, parseInt)
    {
      assert lines[k..][1..] == lines[k + 1..];
      match Entry(lines[k], parseInt) {
        case None =>
          return None;
        case Some(e) =>
          t := t[e.key := e.kb];
      }
    }
    return Some(t);
  }

  /** `dict.get(key, 0)`. */
  function Get0(t: map<string, int>, key: string): int {
    if key in t then t[key] else 0
  }

  /** The memory section: total, used and free, with free = MemFree + Buffers + Cached. */
  function MemoryReport(m: Machine): Report {
    match MemInfo(m.meminfo, m.parseInt)
    case None => Report([], Crashed)
    case Some(t) =>
      var total := Get0(t, "MemTotal");
      var free := Get0(t, "MemFree") + Get0(t, "Buffers") + Get0(t, "Cached");
      Report([TotalMemory(total), UsedMemory(total - free), FreeMemory(free)], Done)
  }

  /**
   * The memory section either crashes on a malformed line or prints three
   * figures, where used and free add up to the total and a key no line
   * names counts as 0.
   */
  lemma MemoryBalance(m: Machine)
    ensures MemoryReport(m).ending.Done? <==> WellFormed(m.meminfo, m.parseInt)
    ensures !MemoryReport(m).ending.Done? ==> MemoryReport(m) == Report([], Crashed)
    ensures MemoryReport(m).ending.Done? ==>
      var l := MemoryReport(m).lines;
      && |l| == 3 && l[0].TotalMemory? && l[1].UsedMemory? && l[2].FreeMemory?
      && l[1].kb + l[2].kb == l[0].kb
      && ((forall k :: 0 <= k < |m.meminfo| ==> Entry(m.meminfo[k], m.parseInt).value.key != "MemTotal") ==> l[0].kb == 0)
  {
    MemTableBuilt(m.meminfo, m.parseInt, map[]);
    if WellFormed(m.meminfo, m.parseInt) {
      MemTableKeys(m.meminfo, m.parseInt, map[], "MemTotal");
    }
  }

  /** The memory section with its table-building loop. */
  method MemoryLines(m: Machine) returns (lines: seq<ReportLine>, ending: Ending)
    ensures Report(lines, ending) == MemoryReport(m)
  {
    var table := BuildMemInfo(m.meminfo, m.parseInt);
    if table.None? {
      return [], Crashed;
    }
    var t := table.value;
    var total := Get0(t, "MemTotal");
    var free := Get0(t, "MemFree") + Get0(t, "Buffers") + Get0(t, "Cached");
    lines, ending := [TotalMemory(total), UsedMemory(total - free), FreeMemory(free)], Done;
  }

  // ---------------------------------------------------------------------
  // Disk (/proc/mounts)

  /** What a mounts line contributes: nothing, an IndexError, or a mount point. */
  datatype MountLine = NotDevice | Malformed | Mount(path: string)

  function MountOf(line: string): MountLine {
    if !StartsWith(line, "/dev/") then NotDevice
    else
      var fields := PyFields(line);
      if |fields| < 2 then Malformed else Mount(fields[1])
  }

  /** The mount points of the device lines, in file order; None if a device line lacks a second field. */
  function MountPoints(lines: seq<string>): Option<seq<string>> {
    if lines == [] then Some([])
    else
      match MountOf(lines[0])
      case Malformed => None
      case NotDevice => MountPoints(lines[1..])
      case Mount(p) =>
        match MountPoints(lines[1..])
        case None => None
        case Some(ps) => Some([p] + ps)
  }

  /**
   * Only lines starting with "/dev/" give mount points, each the line's
   * second field, in the order of the lines.
   */
  lemma {:induction false} MountPointsFromDevices(lines: seq<string>)
    ensures MountPoints(lines).Some? <==> forall k :: 0 <= k < |lines| ==> !MountOf(lines[k]).Malformed?
    ensures MountPoints(lines).Some? ==>
      var ps := MountPoints(lines).value;
      forall p :: p in ps <==> exists k :: 0 <= k < |lines| && StartsWith(lines[k], "/dev/") && MountOf(lines[k]) == Mount(p)
  {
    if lines != [] {
      var rest := lines[1..];
      MountPointsFromDevices(rest);
      assert forall k :: 1 <= k < |lines| ==> lines[k] == rest[k - 1];
    }
  }

  /** One mount point: four lines, or a crash when disk_usage raises. */
  function DiskStep(mount: string, m: Machine): Step {
    match m.diskUsage(mount)
    case None => Stop(Crashed)
    case Some(u) => Emit([MountPoint(mount), TotalDisk(u.total), UsedDisk(u.used), FreeDisk(u.free)])
  }

  function DiskStepper(m: Machine): string -> Step {
    mount => DiskStep(mount, m)
  }

  function DiskReport(m: Machine): Report {
    match MountPoints(m.mounts)
    case None => Report([], Crashed)
    case Some(ps) => Run(ps, DiskStepper(m))
  }

  /** The disk section with its loop over the mount points. */
  method DiskLines(m: Machine) returns (lines: seq<ReportLine>, ending: Ending)
    ensures Report(lines, ending) == DiskReport(m)
  {
    var mounts := MountPoints(m.mounts);
    if mounts.None? {
      return [], Crashed;
    }
    lines, ending := RunSteps(mounts.value, DiskStepper(m));
  }

  // ---------------------------------------------------------------------
  // Processes (/proc/<pid>)

  /** Python's str.isdigit, for ASCII digits. */
  predicate IsDigits(s: string) {
    s != [] && forall k :: 0 <= k < |s| ==> IsAsciiDigit(s[k])
  }

  predicate IsParen(c: char) {
    c == '(' || c == ')'
  }

  /**
   * One /proc entry: skipped unless all digits or while the process is gone;
   * a short stat line, a non-numeric time or an unknown uid crashes.
   */
  function ProcessStep(pid: string, m: Machine): Step {
    if !IsDigits(pid) then Skip
    else
      match m.procStat(pid)
      case None => Skip
      case Some(line) =>
        var f := PyFields(line);
        if |f| < 15 then Stop(Crashed)
        else
          match m.parseInt(f[13])
          case None => Stop(Crashed)
          case Some(utime) =>
            match m.parseInt(f[14])
            case None => Stop(Crashed)
            case Some(stime) =>
              match m.procOwner(pid)
              case Gone => Skip
              case NoSuchUser => Stop(Crashed)
              case User(name) => Emit([ProcessRow(pid, name, TrimBy(f[1], IsParen), f[2], utime, stime)])
  }

  function ProcessStepper(m: Machine): string -> Step {
    pid => ProcessStep(pid, m)
  }

  /** The process section: rows are collected first and printed under the header once the loop completes. */
  function ProcessReport(m: Machine): Report {
    var r := Run(m.procEntries, ProcessStepper(m));
    if r.ending.Done? then Report([ProcessHeader] + r.lines, Done) else Report([], r.ending)
  }

  /**
   * Every process row is for an all-digit /proc entry whose stat line could
   * be read and whose owner is known; nothing but the header and such rows
   * is printed.
   */
  lemma ProcessRowsSound(m: Machine, l: ReportLine)
    requires l in ProcessReport(m).lines
    ensures l == ProcessHeader || (
      && l.ProcessRow?
      && IsDigits(l.pid) && l.pid in m.procEntries
      && m.procStat(l.pid).Some? && m.procOwner(l.pid) == User(l.user))
  {
    var r := Run(m.procEntries, ProcessStepper(m));
    if l != ProcessHeader {
      assert l in r.lines;
      RunEmitted(m.procEntries, ProcessStepper(m), l);
    }
  }

  /** An entry whose process has gone is skipped. */
  lemma GoneProcessSkipped(m: Machine, pid: string)
    requires m.procStat(pid).None? || !IsDigits(pid)
    ensures Run([pid] + m.procEntries, ProcessStepper(m)) == Run(m.procEntries, ProcessStepper(m))
  {
    assert ([pid] + m.procEntries)[1..] == m.procEntries;
  }

  /** The process section with its loop over /proc. */
  method ProcessLines(m: Machine) returns (lines: seq<ReportLine>, ending: Ending)
    ensures Report(lines, ending) == ProcessReport(m)
  {
    var rows;
    rows, ending := RunSteps(m.procEntries, ProcessStepper(m));
    if ending.Done? {
      lines := [ProcessHeader] + rows;
    } else {
      lines := [];
    }
  }

  // ---------------------------------------------------------------------
  // Docker containers

  /** The container id of a `docker ps` or `docker stats` line: its first tab-separated field. */
  function IdOf(line: string): string {
    Split(line, '\t')[0]
  }

  /** The dictionary from container id to `docker ps` line; a later line with the same id wins. */
  function ContainerInfo(lines: seq<string>, acc: map<string, string>): map<string, string> {
    if lines == [] then acc
    else ContainerInfo(lines[1..], acc[IdOf(lines[0]) := lines[0]])
  }

  /** Every id of the dictionary comes from a line, and the line filed under it starts with it. */
  lemma {:induction false} ContainerInfoIds(lines: seq<string>, acc: map<string, string>, id: string)
    requires forall k :: k in acc ==> IdOf(acc[k]) == k
    ensures var info := ContainerInfo(lines, acc);
      && (id in info <==> id in acc || exists k :: 0 <= k < |lines| && IdOf(lines[k]) == id)
      && (id in info ==> IdOf(info[id]) == id)
  {
    if lines != [] {
      var rest := lines[1..];
      assert forall k :: 1 <= k < |lines| ==> lines[k] == rest[k - 1];
      ContainerInfoIds(rest, acc[IdOf(lines[0]) := lines[0]], id);
    }
  }

  /** Build the container dictionary line by line. */
  method BuildContainerInfo(lines: seq<string>) returns (info: map<string, string>)
    ensures info == ContainerInfo(lines, map[])
  {
    info := map[];
    for k := 0 to |lines|
      invariant ContainerInfo(lines[k..], info) == ContainerInfo(lines, map[])
    {
      assert lines[k..][1..] == lines[k + 1..];
      info := info[IdOf(lines[k]) := lines[k]];
    }
  }

  /** The seconds part of a StartedAt value: everything before the first '.'. */
  function WholeSeconds(startedAt: string): string {
    Split(startedAt, '.')[0]
  }

  /** The fractional seconds of StartedAt are dropped before parsing. */
  lemma WholeSecondsDropsFraction(base: string, fraction: string)
    requires '.' !in base
    ensures WholeSeconds(base + "." + fraction) == base
  {
    SplitAfter(base, fraction, '.');
  }

  /** One `docker stats` line: a row if its id is also listed by `docker ps` and inspect reports a start time. */
  function StatsStep(line: string, info: map<string, string>, m: Machine): Step {
    var parts := Split(line, '\t');
    if |parts| != 3 then Stop(Crashed)
    else if parts[0] !in info then Skip
    else
      match m.dockerInspect(parts[0])
      case NotFound => Stop(Failed(DockerMissing))
      case CallFailed => Stop(Failed(DockerFailed))
      case Stdout(out) =>
        if out == "" then Skip
        else
          match m.strptime(WholeSeconds(PyStrip(out)))
          case None => Stop(Crashed)
          case Some(started) => Emit([ContainerRow(info[parts[0]], parts[1], parts[2], ContainerUptimeAsWritten(m.now, started, m.zoneWest))])
  }

  function StatsStepper(info: map<string, string>, m: Machine): string -> Step {
    line => StatsStep(line, info, m)
  }

  /** The lines of a command's output: Python's `stdout.strip().split('\n')`. */
  function OutputLines(out: string): seq<string> {
    Split(PyStrip(out), '\n')
  }

  function PsInfo(out: string): map<string, string> {
    ContainerInfo(OutputLines(out), map[])
  }

  function StatsRows(info: map<string, string>, stats: CommandResult, m: Machine): Report {
    match stats
    case NotFound => Report([], Failed(DockerMissing))
    case CallFailed => Report([], Failed(DockerFailed))
    case Stdout(s) =>
      if s == "" then Report([NoContainers], Done)
      else Run(OutputLines(s), StatsStepper(info, m))
  }

  /** The Docker section: the header, then one row per container both listed and measured. */
  function DockerReport(m: Machine): Report {
    match m.dockerPs
    case NotFound => Report([], Failed(DockerMissing))
    case CallFailed => Report([], Failed(DockerFailed))
    case Stdout(out) =>
      if out == "" then Report([NoContainers], Done)
      else Then(Report([ContainerHeader], Done), StatsRows(PsInfo(out), m.dockerStats, m))
  }

  /** With no container listed only the "no containers" line is printed. */
  lemma NoContainersListed(m: Machine)
    requires m.dockerPs == Stdout("")
    ensures DockerReport(m) == Report([NoContainers], Done)
  {
  }

  /** A stats line yields a row only for an id of the dictionary, and the row starts with that id's line. */
  lemma StatsStepRow(line: string, info: map<string, string>, m: Machine, l: ReportLine)
    requires StatsStep(line, info, m).Emit? && l in StatsStep(line, info, m).out
    ensures l.ContainerRow? && IdOf(line) in info && l.info == info[IdOf(line)]
    ensures var inspected := m.dockerInspect(IdOf(line));
      && inspected.Stdout?
      && m.strptime(WholeSeconds(PyStrip(inspected.text))).Some?
      && l.uptime == ContainerUptimeAsWritten(m.now, m.strptime(WholeSeconds(PyStrip(inspected.text))).value, m.zoneWest)
  {
  }

  /** Container rows come from the loop over the stats lines. */
  lemma DockerRowsFromStats(m: Machine, l: ReportLine)
    requires l in DockerReport(m).lines && l.ContainerRow?
    ensures m.dockerPs.Stdout? && m.dockerPs.text != "" && m.dockerStats.Stdout? && m.dockerStats.text != ""
    ensures l in Run(OutputLines(m.dockerStats.text), StatsStepper(PsInfo(m.dockerPs.text), m)).lines
  {
    match m.dockerPs
    case NotFound =>
    case CallFailed =>
    case Stdout(out) =>
      if out != "" {
        var rows := StatsRows(PsInfo(out), m.dockerStats, m);
        assert DockerReport(m).lines == [ContainerHeader] + rows.lines;
        assert l in rows.lines;
      }
  }

  /**
   * A container row is printed only for an id that `docker stats` reports
   * and `docker ps` lists; the row starts with the `docker ps` line of that
   * id.
   */
  lemma ContainerRowsJoined(m: Machine, l: ReportLine)
    requires l in DockerReport(m).lines && l.ContainerRow?
    ensures m.dockerPs.Stdout? && m.dockerStats.Stdout?
    ensures exists k :: 0 <= k < |OutputLines(m.dockerStats.text)| && IdOf(OutputLines(m.dockerStats.text)[k]) == IdOf(l.info)
    ensures exists j :: 0 <= j < |OutputLines(m.dockerPs.text)| && IdOf(OutputLines(m.dockerPs.text)[j]) == IdOf(l.info)
    ensures IdOf(l.info) in PsInfo(m.dockerPs.text) && l.info == PsInfo(m.dockerPs.text)[IdOf(l.info)]
  {
    DockerRowsFromStats(m, l);
    var info := PsInfo(m.dockerPs.text);
    var statsLines := OutputLines(m.dockerStats.text);
    RunEmitted(statsLines, StatsStepper(info, m), l);
    var k :| 0 <= k < |statsLines| && StatsStepper(info, m)(statsLines[k]).Emit? && l in StatsStepper(info, m)(statsLines[k]).out;
    StatsStepRow(statsLines[k], info, m, l);
    var id := IdOf(statsLines[k]);
    ContainerInfoIds(OutputLines(m.dockerPs.text), map[], id);
  }

  /** The Docker section with its dictionary and its loop over the stats lines. */
  method DockerLines(m: Machine) returns (lines: seq<ReportLine>, ending: Ending)
    ensures Report(lines, ending) == DockerReport(m)
  {
    match m.dockerPs {
      case NotFound =>
        return [], Failed(DockerMissing);
      case CallFailed =>
        return [], Failed(DockerFailed);
      case Stdout(out) =>
        if out == "" {
          return [NoContainers], Done;
        }
        var info := BuildContainerInfo(OutputLines(out));
        match m.dockerStats {
          case NotFound =>
            return [ContainerHeader], Failed(DockerMissing);
          case CallFailed =>
            return [ContainerHeader], Failed(DockerFailed);
          case Stdout(s) =>
            if s == "" {
              return [ContainerHeader, NoContainers], Done;
            }
            var rows;
            rows, ending := RunSteps(OutputLines(s), StatsStepper(info, m));
            lines := [ContainerHeader] + rows;
        }
    }
  }

  // ---------------------------------------------------------------------
  // Container uptime

  function Digit(d: int): char
    requires 0 <= d < 10
  {
    ('0' as int + d) as char
  }

  function Pad2(n: int): string
    requires 0 <= n < 100
  {
    [Digit(n / 10), Digit(n % 10)]
  }

  /** strftime("%H:%M:%S", gmtime(seconds)): the time of day, wrapping every 24 hours. */
  function Clock(seconds: int): (r: string)
    ensures |r| == 8 && r[2] == ':' && r[5] == ':'
  {
    var s := seconds % 86400;
    Pad2(s / 3600) + ":" + Pad2(s % 3600 / 60) + ":" + Pad2(s % 3600 % 60)
  }

  function DigitValue(c: char): int {
    c as int - '0' as int
  }

  /** The number of seconds an "HH:MM:SS" text stands for. */
  function ClockSeconds(r: string): int
    requires |r| == 8
  {
    (10 * DigitValue(r[0]) + DigitValue(r[1])) * 3600
      + (10 * DigitValue(r[3]) + DigitValue(r[4])) * 60
      + 10 * DigitValue(r[6]) + DigitValue(r[7])
  }

  /** The clock text reads back as the seconds modulo one day, so whole days are dropped. */
  lemma ClockRoundTrip(seconds: int)
    ensures ClockSeconds(Clock(seconds)) == seconds % 86400
    ensures Clock(seconds + 86400) == Clock(seconds)
  {
    var s := seconds % 86400;
    var h, rest := s / 3600, s % 3600;
    var mi, sec := rest / 60, rest % 60;
    assert s == h * 3600 + mi * 60 + sec;
    var r := Clock(seconds);
    assert DigitValue(r[0]) == h / 10 && DigitValue(r[1]) == h % 10;
    assert DigitValue(r[3]) == mi / 10 && DigitValue(r[4]) == mi % 10;
    assert DigitValue(r[6]) == sec / 10 && DigitValue(r[7]) == sec % 10;
    assert (seconds + 86400) % 86400 == s;
  }

  /** Days from 1970-01-01 to a date of the proleptic Gregorian calendar. */
  function DaysFromCivil(year: int, month: int, day: int): int {
    var y := if month <= 2 then year - 1 else year;
    var era := y / 400;
    var yoe := y - era * 400;
    var mp := (month + 9) % 12;
    var doy := (153 * mp + 2) / 5 + day - 1;
    var doe := yoe * 365 + yoe / 4 - yoe / 100 + doy;
    era * 146097 + doe - 719468
  }

  /** The seconds since the epoch of `t` read as UTC (calendar.timegm). */
  function TimeGm(t: CivilTime): int {
    DaysFromCivil(t.year, t.month, t.day) * 86400 + t.hour * 3600 + t.minute * 60 + t.second
  }

  /** time.mktime reads `t` as local time: `zoneWest` is the zone's offset in seconds west of UTC. */
  function MkTime(t: CivilTime, zoneWest: int): int {
    TimeGm(t) + zoneWest
  }

  /** The uptime column as written: Docker's UTC start time is converted as if it were local time. */
  function ContainerUptimeAsWritten(now: int, started: CivilTime, zoneWest: int): string {
    Clock(now - MkTime(started, zoneWest))
  }

  /** The uptime column as intended: the time since the UTC start time. */
  function ContainerUptime(now: int, started: CivilTime): string {
    Clock(now - TimeGm(started))
  }

  /** The intended column is the elapsed time since the start, modulo one day, whatever the host's zone. */
  lemma ContainerUptimeIsElapsed(now: int, started: CivilTime)
    ensures ClockSeconds(ContainerUptime(now, started)) == (now - TimeGm(started)) % 86400
  {
    ClockRoundTrip(now - TimeGm(started));
  }

  /** The column as written is the elapsed time shifted by the zone offset, modulo one day. */
  lemma ContainerUptimeAsWrittenIsShifted(now: int, started: CivilTime, zoneWest: int)
    ensures ClockSeconds(ContainerUptimeAsWritten(now, started, zoneWest)) == (now - TimeGm(started) - zoneWest) % 86400
  {
    ClockRoundTrip(now - MkTime(started, zoneWest));
  }

  /** On a host that keeps UTC the written column is the intended one. */
  lemma UptimeAgreesInUtc(now: int, started: CivilTime)
    ensures ContainerUptimeAsWritten(now, started, 0) == ContainerUptime(now, started)
  {
  }

  /** The calendar starts its count at the epoch. */
  lemma TimeGmEpoch()
    ensures TimeGm(CivilTime(1970, 1, 1, 0, 0, 0)) == 0
  {
  }

  lemma ClockOfZeroAndOneHour()
    ensures Clock(0) == "00:00:00" && Clock(3600) == "01:00:00"
  {
    assert Pad2(0) == "00" && Pad2(1) == "01";
    assert Clock(0) == Pad2(0) + ":" + Pad2(0) + ":" + Pad2(0);
    assert Clock(3600) == Pad2(1) + ":" + Pad2(0) + ":" + Pad2(0);
  }

  /**
   * As written, the column is off by the zone offset: a container started
   * this very second on a host one hour east of UTC shows one hour of
   * uptime, where the intended column shows none.
   */
  lemma UptimeShiftedByZone(started: CivilTime)
    ensures ContainerUptimeAsWritten(TimeGm(started), started, -3600) == "01:00:00"
    ensures ContainerUptime(TimeGm(started), started) == "00:00:00"
  {
    ClockOfZeroAndOneHour();
    assert TimeGm(started) - MkTime(started, -3600) == 3600;
  }

  // ---------------------------------------------------------------------
  // Load average and uptime

  function UptimeReport(m: Machine): Report {
    match m.uptime
    case NotFound => Report([], Failed(UptimeMissing))
    case CallFailed => Report([], Failed(UptimeFailed))
    case Stdout(out) => if out == "" then Empty else Report([UptimeInfo(PyStrip(out))], Done)
  }

  // ---------------------------------------------------------------------
  // The whole run

  /** The report each section would give on its own. */
  datatype SectionReports = SectionReports(cpu: Report, memory: Report, disk: Report, processes: Report, docker: Report, uptime: Report)

  function Reports(m: Machine): SectionReports {
    SectionReports(CpuReport(m), MemoryReport(m), DiskReport(m), ProcessReport(m), DockerReport(m), UptimeReport(m))
  }

  function UnknownCheck(r: Option<Resource>, v: Value): Report {
    if r.Some? then Empty else Report([], Failed(UnknownResource(ValueText(v))))
  }

  function FromUptime(r: Option<Resource>, v: Value, s: SectionReports): Report {
    Then(When(Selects(r, LoadAvg) || Selects(r, Uptime), s.uptime), UnknownCheck(r, v))
  }

  function FromDocker(r: Option<Resource>, v: Value, s: SectionReports): Report {
    Then(When(Selects(r, Docker), s.docker), FromUptime(r, v, s))
  }

  function FromProcesses(r: Option<Resource>, v: Value, s: SectionReports): Report {
    Then(When(Selects(r, Processes), s.processes), FromDocker(r, v, s))
  }

  function FromDisk(r: Option<Resource>, v: Value, s: SectionReports): Report {
    Then(When(Selects(r, Disk), s.disk), FromProcesses(r, v, s))
  }

  function FromMemory(r: Option<Resource>, v: Value, s: SectionReports): Report {
    Then(When(Selects(r, Memory), s.memory), FromDisk(r, v, s))
  }

  /**
   * The sections in the script's order for the resource `r` named by `v`,
   * then the check for an unknown resource.
   */
  function Sections(r: Option<Resource>, v: Value, s: SectionReports): Report {
    Then(When(Selects(r, Cpu), s.cpu), FromMemory(r, v, s))
  }

  /** What the script prints and how it ends for a request on a machine. */
  function Outcome(req: Request, m: Machine): Report {
    match req
    case InvalidJson => Report([], Failed(BadJson))
    case NotAnObject => Report([], Crashed)
    case Object(res) => if Falsy(res) then Report([], Failed(ResourceRequired)) else Sections(ResourceOf(res.value), res.value, Reports(m))
  }

  /** A request without a usable resource prints nothing and fails with the required-field message. */
  lemma MissingResourceFails(m: Machine, res: Option<Value>)
    requires Falsy(res)
    ensures Outcome(Object(res), m) == Report([], Failed(ResourceRequired))
  {
  }

  /** An unknown resource prints nothing and fails naming it. */
  lemma UnknownResourceFails(m: Machine, v: Value)
    requires !Falsy(Some(v)) && ResourceOf(v).None?
    ensures Outcome(Object(Some(v)), m) == Report([], Failed(UnknownResource(ValueText(v))))
  {
  }

  /** What each resource prints: its own section, or for "all" every section in order. */
  function Selected(x: Resource, s: SectionReports): Report {
    match x
    case Cpu => s.cpu
    case Memory => s.memory
    case Disk => s.disk
    case Processes => s.processes
    case Docker => s.docker
    case LoadAvg => s.uptime
    case Uptime => s.uptime
    case All => Then(s.cpu, Then(s.memory, Then(s.disk, Then(s.processes, Then(s.docker, s.uptime)))))
  }

  lemma ThenEmpty(r: Report)
    ensures Then(r, Empty) == r && Then(Empty, r) == r
  {
    assert r.lines + [] == r.lines;
  }

  /** A known resource runs its own sections and nothing else. */
  lemma SectionsSelected(r: Option<Resource>, v: Value, s: SectionReports)
    requires r.Some?
    ensures Sections(r, v, s) == Selected(r.value, s)
  {
    var x := r.value;
    ThenEmpty(s.uptime);
    if x == All {
      return;
    }
    ThenEmpty(s.docker);
    ThenEmpty(s.processes);
    ThenEmpty(s.disk);
    ThenEmpty(s.memory);
    ThenEmpty(s.cpu);
    ThenEmpty(FromUptime(r, v, s));
    ThenEmpty(FromDocker(r, v, s));
    ThenEmpty(FromProcesses(r, v, s));
    ThenEmpty(FromDisk(r, v, s));
    ThenEmpty(FromMemory(r, v, s));
  }

  /**
   * A known resource runs its section (every section for "all", stopping at
   * the first that fails) and nothing else.
   */
  lemma Routing(v: Value, m: Machine)
    requires ResourceOf(v).Some?
    ensures Outcome(Object(Some(v)), m) == Selected(ResourceOf(v).value, Reports(m))
  {
    SectionsSelected(ResourceOf(v), v, Reports(m));
  }

  /** Appending one section's report to the lines printed so far. */
  lemma ThenStep(lines: seq<ReportLine>, a: Report, rest: Report)
    ensures Then(Report(lines, Done), Then(a, rest)) ==
      if a.ending.Done? then Then(Report(lines + a.lines, Done), rest) else Report(lines + a.lines, a.ending)
  {
    if a.ending.Done? {
      assert lines + (a.lines + rest.lines) == (lines + a.lines) + rest.lines;
    }
  }

  /** The script's `execute`: reject a bad request, else run the sections. */
  method Execute(req: Request, m: Machine) returns (lines: seq<ReportLine>, ending: Ending)
    ensures Report(lines, ending) == Outcome(req, m)
  {
    match req {
      case InvalidJson =>
        return [], Failed(BadJson);
      case NotAnObject =>
        return [], Crashed;
      case Object(res) =>
        if Falsy(res) {
          return [], Failed(ResourceRequired);
        }
        lines, ending := RunSections(ResourceOf(res.value), res.value, m);
    }
  }

  /** The CPU, memory and disk sections, then the rest, stopping at the first error. */
  method RunSections(r: Option<Resource>, v: Value, m: Machine) returns (lines: seq<ReportLine>, ending: Ending)
    ensures Report(lines, ending) == Sections(r, v, Reports(m))
  {
    var part := Empty;
    if Selects(r, Cpu) {
      part := CpuReport(m);
    }
    assert Then(Report([], Done), Sections(r, v, Reports(m))) == Sections(r, v, Reports(m));
    ThenStep([], part, FromMemory(r, v, Reports(m)));
    lines := part.lines;
    if !part.ending.Done? {
      return lines, part.ending;
    }
    part := Empty;
    if Selects(r, Memory) {
      var l, e := MemoryLines(m);
      part := Report(l, e);
    }
    ThenStep(lines, part, FromDisk(r, v, Reports(m)));
    lines := lines + part.lines;
    if !part.ending.Done? {
      return lines, part.ending;
    }
    part := Empty;
    if Selects(r, Disk) {
      var l, e := DiskLines(m);
      part := Report(l, e);
    }
    ThenStep(lines, part, FromProcesses(r, v, Reports(m)));
    lines := lines + part.lines;
    if !part.ending.Done? {
      return lines, part.ending;
    }
    var rest, e := LaterSections(r, v, m);
    lines, ending := lines + rest, e;
  }

  /** The processes, Docker and uptime sections, then the check for an unknown resource. */
  method LaterSections(r: Option<Resource>, v: Value, m: Machine) returns (lines: seq<ReportLine>, ending: Ending)
    ensures Report(lines, ending) == FromProcesses(r, v, Reports(m))
  {
    var part := Empty;
    if Selects(r, Processes) {
      var l, e := ProcessLines(m);
      part := Report(l, e);
    }
    assert Then(Report([], Done), FromProcesses(r, v, Reports(m))) == FromProcesses(r, v, Reports(m));
    ThenStep([], part, FromDocker(r, v, Reports(m)));
    lines := part.lines;
    if !part.ending.Done? {
      return lines, part.ending;
    }
    part := Empty;
    if Selects(r, Docker) {
      var l, e := DockerLines(m);
      part := Report(l, e);
    }
    ThenStep(lines, part, FromUptime(r, v, Reports(m)));
    lines := lines + part.lines;
    if !part.ending.Done? {
      return lines, part.ending;
    }
    part := Empty;
    if Selects(r, LoadAvg) || Selects(r, Uptime) {
      part := UptimeReport(m);
    }
    ThenStep(lines, part, UnknownCheck(r, v));
    lines := lines + part.lines;
    if !part.ending.Done? {
      return lines, part.ending;
    }
    assert lines + [] == lines;
    if r.None? {
      return lines, Failed(UnknownResource(ValueText(v)));
    }
    ending := Done;
  }
}
