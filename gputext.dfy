/**
 * The text dashboard (server/gpu-monitoring/flask-text): three nvidia-smi queries,
 * a container and a command line per GPU process, and one view per GPU, in the order
 * of the GPU indices' integer values.
 */
module GpuText {
  import opened Common
  import opened PyStr
  import opened Csv
  import opened PyDict
  import opened Cgroup
  import opened KeySort

  // ---------------------------------------------------------------------------
  // get_gpu_index_mapping

  /** One line of `--query-gpu=gpu_uuid,gpu_bus_id,index`. */
  datatype AliasRow = AliasRow(uuid: string, busId: string, index: string)

  /** `uuid, busid, idx = fields`: exactly three fields, or the unpacking raises. */
  function AliasRowOf(line: string): Result<Option<AliasRow>> {
    var f := Fields(line);
    if |f| == 3 then Ok(Some(AliasRow(f[0], f[1], f[2]))) else Err(Unpack)
  }

  function RowUuid(a: AliasRow): string { a.uuid }
  function RowBus(a: AliasRow): string { a.busId }
  function RowIndex(a: AliasRow): string { a.index }

  /** The two dicts get_gpu_index_mapping returns: uuid to index and bus id to index. */
  datatype AliasTables = AliasTables(byUuid: map<string, string>, byBus: map<string, string>)

  /** get_gpu_index_mapping on the query's stdout. */
  function IndexMapping(out: string): Result<AliasTables> {
    var rows :- ParseLines(Lines(out), AliasRowOf);
    Ok(AliasTables(Collect(rows, RowUuid, RowIndex).entries, Collect(rows, RowBus, RowIndex).entries))
  }

  /** The loop of get_gpu_index_mapping, filling both dicts line by line. */
  method GetIndexMapping(out: string) returns (r: Result<AliasTables>)
    ensures r == IndexMapping(out)
  {
    var lines := Lines(out);
    ghost var rows: seq<AliasRow> := [];
    var byUuid: map<string, string> := map[];
    var byBus: map<string, string> := map[];
    var i := 0;
    while i < |lines|
      invariant 0 <= i <= |lines|
      invariant ParseLines(lines[..i], AliasRowOf) == Ok(rows)
      invariant byUuid == Collect(rows, RowUuid, RowIndex).entries
      invariant byBus == Collect(rows, RowBus, RowIndex).entries
    {
      var parsed := AliasRowOf(lines[i]);
      if parsed.Err? {
        ParseLinesRaises(lines, AliasRowOf, i);
        return Err(parsed.error);
      }
      var row := parsed.value.value;
      byUuid := byUuid[row.uuid := row.index];
      byBus := byBus[row.busId := row.index];
      ParseLinesSnoc(lines, AliasRowOf, i);
      CollectSnoc(rows, row, RowUuid, RowIndex);
      CollectSnoc(rows, row, RowBus, RowIndex);
      rows := rows + [row];
      i := i + 1;
    }
    assert lines[..i] == lines;
    return Ok(AliasTables(byUuid, byBus));
  }

  /** A line of the mapping query: three fields or a raise. */
  lemma AliasRowShape(line: string)
    ensures AliasRowOf(line).Ok? <==> |Fields(line)| == 3
    ensures AliasRowOf(line).Ok? ==>
      Keeps(AliasRowOf, line) && ValueOf(AliasRowOf, line) == AliasRow(Column(line, 0), Column(line, 1), Column(line, 2))
  {
  }

  /** The mapping raises exactly when some line does not have three fields. */
  lemma IndexMappingFails(out: string)
    ensures IndexMapping(out).Ok? <==> forall i :: 0 <= i < |Lines(out)| ==> |Fields(Lines(out)[i])| == 3
  {
    var lines := Lines(out);
    ParseLinesOutcome(lines, AliasRowOf);
    forall i | 0 <= i < |lines|
      ensures AliasRowOf(lines[i]).Ok? <==> |Fields(lines[i])| == 3
    {
      AliasRowShape(lines[i]);
    }
  }

  /** Each dict's keys are the uuids (bus ids) of the lines. */
  lemma IndexMappingKeys(out: string)
    requires IndexMapping(out).Ok?
    ensures IndexMapping(out).value.byUuid.Keys == set i | 0 <= i < |Lines(out)| :: Column(Lines(out)[i], 0)
    ensures IndexMapping(out).value.byBus.Keys == set i | 0 <= i < |Lines(out)| :: Column(Lines(out)[i], 1)
  {
    var lines := Lines(out);
    ParseLinesOutcome(lines, AliasRowOf);
    forall i | 0 <= i < |lines| {
      AliasRowShape(lines[i]);
    }
    CollectLinesKeys(lines, AliasRowOf, RowUuid, RowIndex);
    CollectLinesKeys(lines, AliasRowOf, RowBus, RowIndex);
    SameColumn(lines, AliasRowOf, RowUuid, 0);
    SameColumn(lines, AliasRowOf, RowBus, 1);
  }

  /** A uuid no later line repeats maps to its own line's index. */
  lemma UuidLastWins(out: string, i: nat)
    requires IndexMapping(out).Ok? && i < |Lines(out)|
    requires forall j :: i < j < |Lines(out)| ==> Column(Lines(out)[j], 0) != Column(Lines(out)[i], 0)
    ensures Column(Lines(out)[i], 0) in IndexMapping(out).value.byUuid
    ensures IndexMapping(out).value.byUuid[Column(Lines(out)[i], 0)] == Column(Lines(out)[i], 2)
  {
    var lines := Lines(out);
    ParseLinesOutcome(lines, AliasRowOf);
    forall j | 0 <= j < |lines| {
      AliasRowShape(lines[j]);
    }
    CollectLinesLast(lines, AliasRowOf, RowUuid, RowIndex, i);
  }

  /** A bus id no later line repeats maps to its own line's index. */
  lemma BusLastWins(out: string, i: nat)
    requires IndexMapping(out).Ok? && i < |Lines(out)|
    requires forall j :: i < j < |Lines(out)| ==> Column(Lines(out)[j], 1) != Column(Lines(out)[i], 1)
    ensures Column(Lines(out)[i], 1) in IndexMapping(out).value.byBus
    ensures IndexMapping(out).value.byBus[Column(Lines(out)[i], 1)] == Column(Lines(out)[i], 2)
  {
    var lines := Lines(out);
    ParseLinesOutcome(lines, AliasRowOf);
    forall j | 0 <= j < |lines| {
      AliasRowShape(lines[j]);
    }
    CollectLinesLast(lines, AliasRowOf, RowBus, RowIndex, i);
  }

  /** Empty query output is the one line "", which has one field, so the mapping raises. */
  lemma IndexMappingEmptyOutput()
    ensures IndexMapping("").Err?
  {
    StripUnchanged("");
    assert Lines("") == [""];
    assert |Fields("")| == 1;
    IndexMappingFails("");
  }

  // ---------------------------------------------------------------------------
  // get_gpu_summary

  /** The value gpu_info holds for one index. */
  datatype GpuSummary = GpuSummary(name: string, memoryTotal: int, gpuUtil: int)

  datatype SummaryRow = SummaryRow(index: string, summary: GpuSummary)

  /**
   * `idx, name, total, util = fields` then int(total) and int(util): four fields and
   * two integers, or the line raises.
   */
  function SummaryRowOf(line: string): Result<Option<SummaryRow>> {
    var f := Fields(line);
    if |f| != 4 then Err(Unpack)
    else
      match PyInt(f[2])
      case None => Err(NotAnInteger)
      case Some(total) =>
        match PyInt(f[3])
        case None => Err(NotAnInteger)
        case Some(util) => Ok(Some(SummaryRow(f[0], GpuSummary(f[1], total, util))))
  }

  function SummaryIndex(r: SummaryRow): string { r.index }
  function SummaryValue(r: SummaryRow): GpuSummary { r.summary }

  /** get_gpu_summary on the query's stdout: gpu_info in key insertion order. */
  function Summary(out: string): Result<Dict<string, GpuSummary>> {
    var rows :- ParseLines(Lines(out), SummaryRowOf);
    Ok(Collect(rows, SummaryIndex, SummaryValue))
  }

  /** The loop of get_gpu_summary. */
  method GetSummary(out: string) returns (r: Result<Dict<string, GpuSummary>>)
    ensures r == Summary(out)
  {
    var lines := Lines(out);
    ghost var rows: seq<SummaryRow> := [];
    var info: Dict<string, GpuSummary> := Dict([], map[]);
    var i := 0;
    while i < |lines|
      invariant 0 <= i <= |lines|
      invariant ParseLines(lines[..i], SummaryRowOf) == Ok(rows)
      invariant info == Collect(rows, SummaryIndex, SummaryValue)
    {
      var parsed := SummaryRowOf(lines[i]);
      if parsed.Err? {
        ParseLinesRaises(lines, SummaryRowOf, i);
        return Err(parsed.error);
      }
      var row := parsed.value.value;
      info := Put(info, row.index, row.summary);
      ParseLinesSnoc(lines, SummaryRowOf, i);
      CollectSnoc(rows, row, SummaryIndex, SummaryValue);
      rows := rows + [row];
      i := i + 1;
    }
    assert lines[..i] == lines;
    return Ok(info);
  }

  /** A line of the summary query: four fields and two integers, or a raise. */
  lemma SummaryRowShape(line: string)
    ensures SummaryRowOf(line).Ok? <==>
      |Fields(line)| == 4 && PyInt(Column(line, 2)).Some? && PyInt(Column(line, 3)).Some?
    ensures SummaryRowOf(line).Ok? ==>
      && Keeps(SummaryRowOf, line)
      && ValueOf(SummaryRowOf, line) == SummaryRow(Column(line, 0),
           GpuSummary(Column(line, 1), PyInt(Column(line, 2)).value, PyInt(Column(line, 3)).value))
  {
  }

  /** The summary raises exactly when some line lacks four fields or an integer total or utilization. */
  lemma SummaryFails(out: string)
    ensures Summary(out).Ok? <==> forall i :: 0 <= i < |Lines(out)| ==>
      |Fields(Lines(out)[i])| == 4 && PyInt(Column(Lines(out)[i], 2)).Some? && PyInt(Column(Lines(out)[i], 3)).Some?
  {
    var lines := Lines(out);
    forall i | 0 <= i < |lines| {
      SummaryRowShape(lines[i]);
    }
    ParseLinesOutcome(lines, SummaryRowOf);
  }

  /** The summary holds each index once, and its indices are those of the lines. */
  lemma SummaryKeys(out: string)
    requires Summary(out).Ok?
    ensures Summary(out).value.Valid()
    ensures Summary(out).value.entries.Keys == set i | 0 <= i < |Lines(out)| :: Column(Lines(out)[i], 0)
  {
    var lines := Lines(out);
    ParseLinesOutcome(lines, SummaryRowOf);
    forall i | 0 <= i < |lines| {
      SummaryRowShape(lines[i]);
    }
    CollectLinesKeys(lines, SummaryRowOf, SummaryIndex, SummaryValue);
    SameColumn(lines, SummaryRowOf, SummaryIndex, 0);
  }

  /** An index no later line repeats maps to its own line's name, total and utilization. */
  lemma SummaryLastWins(out: string, i: nat)
    requires Summary(out).Ok? && i < |Lines(out)|
    requires forall j :: i < j < |Lines(out)| ==> Column(Lines(out)[j], 0) != Column(Lines(out)[i], 0)
    ensures Column(Lines(out)[i], 0) in Summary(out).value.entries
    ensures var s := Summary(out).value.entries[Column(Lines(out)[i], 0)];
      && s.name == Column(Lines(out)[i], 1)
      && PyInt(Column(Lines(out)[i], 2)) == Some(s.memoryTotal)
      && PyInt(Column(Lines(out)[i], 3)) == Some(s.gpuUtil)
  {
    var lines := Lines(out);
    ParseLinesOutcome(lines, SummaryRowOf);
    forall j | 0 <= j < |lines| {
      SummaryRowShape(lines[j]);
    }
    CollectLinesLast(lines, SummaryRowOf, SummaryIndex, SummaryValue, i);
  }

  /** Empty query output is the one line "", which has one field, so the summary raises. */
  lemma SummaryEmptyOutput()
    ensures Summary("").Err?
  {
    StripUnchanged("");
    assert Lines("") == [""];
    assert |Fields("")| == 1;
    SummaryFails("");
  }

  /** Empty query output is the one line "", which is skipped: no processes. */
  lemma ProcessesEmptyOutput()
    ensures Processes("") == Ok([])
  {
    StripUnchanged("");
    assert Lines("") == [""];
    assert |Fields("")| == 1;
    OneLine("", ProcSampleOf);
  }

  // ---------------------------------------------------------------------------
  // get_gpu_processes

  /** One process in `--query-compute-apps=gpu_uuid,gpu_bus_id,pid,process_name,used_gpu_memory`. */
  datatype ProcSample = ProcSample(uuid: string, busId: string, pid: string, process: string, mib: int)

  /** A line with five fields is a process; any other line is skipped; int(mem) may raise. */
  function ProcSampleOf(line: string): Result<Option<ProcSample>> {
    var f := Fields(line);
    if |f| != 5 then Ok(None)
    else
      match PyInt(f[4])
      case None => Err(NotAnInteger)
      case Some(mib) => Ok(Some(ProcSample(f[0], f[1], f[2], f[3], mib)))
  }

  /** get_gpu_processes on the query's stdout. */
  function Processes(out: string): Result<seq<ProcSample>> {
    ParseLines(Lines(out), ProcSampleOf)
  }

  /** The loop of get_gpu_processes. */
  method GetProcesses(out: string) returns (r: Result<seq<ProcSample>>)
    ensures r == Processes(out)
  {
    var lines := Lines(out);
    var processes: seq<ProcSample> := [];
    var i := 0;
    while i < |lines|
      invariant 0 <= i <= |lines|
      invariant ParseLines(lines[..i], ProcSampleOf) == Ok(processes)
    {
      var parsed := ProcSampleOf(lines[i]);
      if parsed.Err? {
        ParseLinesRaises(lines, ProcSampleOf, i);
        return Err(parsed.error);
      }
      ParseLinesSnoc(lines, ProcSampleOf, i);
      if parsed.value.Some? {
        processes := processes + [parsed.value.value];
      } else {
        assert processes + [] == processes;
      }
      i := i + 1;
    }
    assert lines[..i] == lines;
    return Ok(processes);
  }

  /** A line of the process query: kept with five fields, skipped otherwise; int(mem) may raise. */
  lemma ProcSampleShape(line: string)
    ensures ProcSampleOf(line).Ok? <==> (|Fields(line)| == 5 ==> PyInt(Column(line, 4)).Some?)
    ensures ProcSampleOf(line).Ok? ==> (Keeps(ProcSampleOf, line) <==> |Fields(line)| == 5)
    ensures Keeps(ProcSampleOf, line) ==>
      ValueOf(ProcSampleOf, line) ==
      ProcSample(Column(line, 0), Column(line, 1), Column(line, 2), Column(line, 3), PyInt(Column(line, 4)).value)
  {
  }

  /** The process list raises exactly when a five-field line has a memory field that is not an integer. */
  lemma ProcessesFails(out: string)
    ensures Processes(out).Ok? <==> forall i :: 0 <= i < |Lines(out)| ==>
      |Fields(Lines(out)[i])| == 5 ==> PyInt(Column(Lines(out)[i], 4)).Some?
  {
    var lines := Lines(out);
    ParseLinesOutcome(lines, ProcSampleOf);
    if Processes(out).Ok? {
      forall i | 0 <= i < |lines|
        ensures |Fields(lines[i])| == 5 ==> PyInt(Column(lines[i], 4)).Some?
      {
        ProcSampleShape(lines[i]);
      }
    } else {
      var i :| FirstRaise(lines, ProcSampleOf, i);
      ProcSampleShape(lines[i]);
    }
  }

  /** When nothing raises, the lines that yield a sample are exactly the five-field lines. */
  lemma ProcessesKeptLines(out: string)
    requires Processes(out).Ok?
    ensures forall l :: l in Kept(Lines(out), ProcSampleOf) <==> l in Lines(out) && |Fields(l)| == 5
  {
    var lines := Lines(out);
    ParseLinesOutcome(lines, ProcSampleOf);
    forall l | l in lines
      ensures Keeps(ProcSampleOf, l) <==> |Fields(l)| == 5
    {
      ProcSampleShape(l);
    }
  }

  /** The process list has one sample per kept line, in line order, made of that line's fields. */
  lemma ProcessesValues(out: string)
    requires Processes(out).Ok?
    ensures |Processes(out).value| == |Kept(Lines(out), ProcSampleOf)|
    ensures forall k :: 0 <= k < |Kept(Lines(out), ProcSampleOf)| ==>
      var l := Kept(Lines(out), ProcSampleOf)[k];
      && PyInt(Column(l, 4)).Some?
      && Processes(out).value[k] == ProcSample(Column(l, 0), Column(l, 1), Column(l, 2), Column(l, 3), PyInt(Column(l, 4)).value)
  {
    var lines := Lines(out);
    var kept := Kept(lines, ProcSampleOf);
    ParseLinesKept(lines, ProcSampleOf);
    forall k | 0 <= k < |kept| {
      ProcSampleShape(kept[k]);
    }
  }

  // ---------------------------------------------------------------------------
  // get_container_name_from_pid, get_command_from_pid

  /**
   * What the page learns outside nvidia-smi, for one request: the text of
   * `$HOST_PROC/<pid>/cgroup` for every pid whose file could be read, the stdout of
   * `docker inspect --format {{.Name}} <id>` for every id docker could be started for,
   * and the stdout of `ps -p <pid> -o args=` for every pid ps could be started for. A
   * missing key is a call that raised.
   */
  datatype Probes = Probes(cgroups: map<string, string>, names: map<string, string>, commands: map<string, string>)

  /** name is out with its leading '/' characters removed. */
  ghost predicate SlashTrimmed(out: string, name: string) {
    && |name| <= |out| && name == out[|out| - |name|..]
    && (forall k :: 0 <= k < |out| - |name| ==> out[k] == '/')
    && (name == [] || name[0] != '/')
  }

  /**
   * get_container_name_from_pid: the first cgroup pattern that matches gives the
   * container id, and the stripped `docker inspect` output without its leading '/' is
   * the name. No readable cgroup file, no match or a failed inspect give None.
   */
  function ContainerName(env: Probes, pid: string): Option<string> {
    if pid !in env.cgroups then None
    else
      match ContainerId(env.cgroups[pid])
      case None => None
      case Some(found) =>
        if found.id in env.names then Some(LStripChar(Strip(env.names[found.id]), '/')) else None
  }

  /**
   * A name exactly when the cgroup file was read, a pattern matched and docker inspect
   * ran; the name is the inspect output, stripped, without its leading slashes.
   */
  lemma ContainerNameSpec(env: Probes, pid: string)
    ensures ContainerName(env, pid).Some? <==>
      pid in env.cgroups && ContainerId(env.cgroups[pid]).Some? && ContainerId(env.cgroups[pid]).value.id in env.names
    ensures ContainerName(env, pid).Some? ==>
      SlashTrimmed(Strip(env.names[ContainerId(env.cgroups[pid]).value.id]), ContainerName(env, pid).value)
  {
  }

  /** get_command_from_pid: the stripped `ps` output, or None when ps could not be started. */
  function Command(env: Probes, pid: string): Option<string> {
    if pid in env.commands then Some(Strip(env.commands[pid])) else None
  }

  /** `get_container_name_from_pid(pid) or "unknown"`. */
  function Owner(env: Probes, pid: string): string {
    PyOr(ContainerName(env, pid), "unknown")
  }

  /** The container shown for a process is never empty: its name, or "unknown". */
  lemma OwnerSpec(env: Probes, pid: string)
    ensures Owner(env, pid) != ""
    ensures ContainerName(env, pid).Some? && ContainerName(env, pid).value != "" ==>
      Owner(env, pid) == ContainerName(env, pid).value
    ensures ContainerName(env, pid).None? || ContainerName(env, pid).value == "" ==> Owner(env, pid) == "unknown"
  {
  }

  /** `get_command_from_pid(pid) or proc_name`. */
  function CommandLine(env: Probes, pid: string, procName: string): string {
    PyOr(Command(env, pid), procName)
  }

  /**
   * The command shown: the stripped ps output when it is not empty, else the process
   * name nvidia-smi reported.
   */
  lemma CommandLineSpec(env: Probes, pid: string, procName: string)
    ensures pid in env.commands && Strip(env.commands[pid]) != "" ==>
      CommandLine(env, pid, procName) == Strip(env.commands[pid])
    ensures pid !in env.commands || Strip(env.commands[pid]) == "" ==> CommandLine(env, pid, procName) == procName
  {
  }

  // ---------------------------------------------------------------------------
  // dashboard

  /**
   * `uuid_to_index.get(uuid) or busid_to_index.get(bus) or "unknown"`: the uuid's
   * index when it is known and not empty, else the bus id's, else "unknown".
   */
  function ResolveIndex(t: AliasTables, uuid: string, bus: string): string {
    PyOr(Get(t.byUuid, uuid), PyOr(Get(t.byBus, bus), "unknown"))
  }

  /** The slot is never empty: the uuid's index, else the bus id's, else "unknown". */
  lemma ResolveIndexSpec(t: AliasTables, uuid: string, bus: string)
    ensures ResolveIndex(t, uuid, bus) != ""
    ensures uuid in t.byUuid && t.byUuid[uuid] != "" ==> ResolveIndex(t, uuid, bus) == t.byUuid[uuid]
    ensures !(uuid in t.byUuid && t.byUuid[uuid] != "") && bus in t.byBus && t.byBus[bus] != "" ==>
      ResolveIndex(t, uuid, bus) == t.byBus[bus]
    ensures !(uuid in t.byUuid && t.byUuid[uuid] != "") && !(bus in t.byBus && t.byBus[bus] != "") ==>
      ResolveIndex(t, uuid, bus) == "unknown"
  {
  }

  /** The GPU a process is counted on. */
  function Slot(t: AliasTables, p: ProcSample): string {
    ResolveIndex(t, p.uuid, p.busId)
  }

  /** One entry of a GPU's process list. */
  datatype ProcRow = ProcRow(container: string, pid: string, mem: int, cmd: string)

  function RowOf(env: Probes, p: ProcSample): ProcRow {
    ProcRow(Owner(env, p.pid), p.pid, p.mib, CommandLine(env, p.pid, p.process))
  }

  /** The memory, in MiB, of the processes counted on GPU idx. */
  function UsedOn(t: AliasTables, ps: seq<ProcSample>, idx: string): int {
    if |ps| == 0 then 0
    else
      var p := ps[|ps| - 1];
      UsedOn(t, ps[..|ps| - 1], idx) + if Slot(t, p) == idx then p.mib else 0
  }

  /** The rows of the processes counted on GPU idx, in process order. */
  function RowsOn(env: Probes, t: AliasTables, ps: seq<ProcSample>, idx: string): seq<ProcRow> {
    if |ps| == 0 then []
    else
      var p := ps[|ps| - 1];
      RowsOn(env, t, ps[..|ps| - 1], idx) + if Slot(t, p) == idx then [RowOf(env, p)] else []
  }

  /** Counting one more process. */
  lemma TallySnoc(env: Probes, t: AliasTables, ps: seq<ProcSample>, i: nat)
    requires i < |ps|
    ensures forall idx ::
              UsedOn(t, ps[..i + 1], idx) == UsedOn(t, ps[..i], idx) + if Slot(t, ps[i]) == idx then ps[i].mib else 0
    ensures forall idx ::
              RowsOn(env, t, ps[..i + 1], idx) ==
              RowsOn(env, t, ps[..i], idx) + if Slot(t, ps[i]) == idx then [RowOf(env, ps[i])] else []
  {
    var a := ps[..i + 1];
    assert a[..|a| - 1] == ps[..i] && a[|a| - 1] == ps[i];
  }

  function SumMem(rows: seq<ProcRow>): int {
    if |rows| == 0 then 0 else SumMem(rows[..|rows| - 1]) + rows[|rows| - 1].mem
  }

  /** A GPU's used memory is the sum of the memory of the processes listed under it. */
  lemma {:induction false} UsedIsListedSum(env: Probes, t: AliasTables, ps: seq<ProcSample>, idx: string)
    ensures UsedOn(t, ps, idx) == SumMem(RowsOn(env, t, ps, idx))
  {
    if |ps| > 0 {
      var p := ps[|ps| - 1];
      var init := RowsOn(env, t, ps[..|ps| - 1], idx);
      UsedIsListedSum(env, t, ps[..|ps| - 1], idx);
      if Slot(t, p) == idx {
        assert (init + [RowOf(env, p)])[..|init|] == init;
      } else {
        assert init + [] == init;
      }
    }
  }

  /** A GPU no process is counted on shows 0 MiB used and an empty process list. */
  lemma {:induction false} IdleGpu(env: Probes, t: AliasTables, ps: seq<ProcSample>, idx: string)
    requires forall i :: 0 <= i < |ps| ==> Slot(t, ps[i]) != idx
    ensures UsedOn(t, ps, idx) == 0 && RowsOn(env, t, ps, idx) == []
  {
    if |ps| > 0 {
      var init := ps[..|ps| - 1];
      assert forall i :: 0 <= i < |init| ==> init[i] == ps[i];
      IdleGpu(env, t, init, idx);
    }
  }

  /** Row i of the process table is listed under GPU idx. */
  ghost predicate ListedFrom(env: Probes, t: AliasTables, ps: seq<ProcSample>, idx: string, i: int, r: ProcRow) {
    0 <= i < |ps| && Slot(t, ps[i]) == idx && RowOf(env, ps[i]) == r
  }

  /**
   * Every process counted on GPU idx is listed under it, and everything listed under it
   * is the row of such a process.
   */
  lemma {:induction false} RowsOnMembers(env: Probes, t: AliasTables, ps: seq<ProcSample>, idx: string)
    ensures forall i :: 0 <= i < |ps| && Slot(t, ps[i]) == idx ==> RowOf(env, ps[i]) in RowsOn(env, t, ps, idx)
    ensures forall r :: r in RowsOn(env, t, ps, idx) ==> exists i :: ListedFrom(env, t, ps, idx, i, r)
  {
    if |ps| > 0 {
      var init := ps[..|ps| - 1];
      var p := ps[|ps| - 1];
      assert forall i :: 0 <= i < |init| ==> init[i] == ps[i];
      RowsOnMembers(env, t, init, idx);
      forall r | r in RowsOn(env, t, ps, idx)
        ensures exists i :: ListedFrom(env, t, ps, idx, i, r)
      {
        if r in RowsOn(env, t, init, idx) {
          var i :| ListedFrom(env, t, init, idx, i, r);
          assert ListedFrom(env, t, ps, idx, i, r);
        } else {
          assert ListedFrom(env, t, ps, idx, |ps| - 1, r);
        }
      }
    }
  }

  /** `round((used / total) * 100, 1) if total else 0`, without the rounding. */
  function Percent(used: int, total: int): real {
    if total == 0 then 0.0 else (used as real) * 100.0 / (total as real)
  }

  /** The percentage is 0 for a GPU reporting no memory, and used / total * 100 otherwise. */
  lemma PercentMeaning(used: int, total: int)
    ensures total == 0 ==> Percent(used, total) == 0.0
    ensures total != 0 ==> Percent(used, total) * (total as real) == (used as real) * 100.0
  {
  }

  /** One GPU as the page shows it. */
  datatype GpuView = GpuView(
    index: string, name: string, total: int, used: int, percent: real, util: int, processes: seq<ProcRow>)

  /** The view of GPU idx. */
  function ViewOf(env: Probes, t: AliasTables, info: Dict<string, GpuSummary>, ps: seq<ProcSample>, idx: string): GpuView
    requires idx in info.entries
  {
    var s := info.entries[idx];
    var used := UsedOn(t, ps, idx);
    GpuView(idx, s.name, s.memoryTotal, used, Percent(used, s.memoryTotal), s.gpuUtil, RowsOn(env, t, ps, idx))
  }

  function Views(env: Probes, t: AliasTables, info: Dict<string, GpuSummary>, ps: seq<ProcSample>, order: seq<string>)
    : seq<GpuView>
    requires forall x :: x in order ==> x in info.entries
  {
    seq(|order|, k requires 0 <= k < |order| => ViewOf(env, t, info, ps, order[k]))
  }

  /** One more index: one more view at the end. */
  lemma ViewsSnoc(env: Probes, t: AliasTables, info: Dict<string, GpuSummary>, ps: seq<ProcSample>, order: seq<string>, i: nat)
    requires i < |order| && forall x :: x in order ==> x in info.entries
    ensures Views(env, t, info, ps, order[..i + 1]) == Views(env, t, info, ps, order[..i]) + [ViewOf(env, t, info, ps, order[i])]
  {
  }

  /** Sorted keys of a dict are keys of the dict. */
  lemma SortedKeysPresent(info: Dict<string, GpuSummary>)
    requires info.Valid() && SortByInt(info.keys).Ok?
    ensures forall x :: x in SortByInt(info.keys).value ==> x in info.entries
  {
    var order := SortByInt(info.keys).value;
    forall x | x in order
      ensures x in info.entries
    {
      assert x in multiset(order);
    }
  }

  /** The page for parsed queries: one view per summary index, in ascending int order. */
  function Render(env: Probes, t: AliasTables, info: Dict<string, GpuSummary>, ps: seq<ProcSample>)
    : Result<seq<GpuView>>
    requires info.Valid()
  {
    var order :- SortByInt(info.keys);
    SortedKeysPresent(info);
    Ok(Views(env, t, info, ps, order))
  }

  /** How one `subprocess.run(["nvidia-smi", ...], text=True)` call ended; its exit status is not checked. */
  datatype Query =
    | Ran(stdout: string)  // the program ran; this is its standard output
    | NotStarted           // nvidia-smi could not be started (OSError)
    | Undecodable          // its output is not valid text (UnicodeDecodeError)

  /** The stdout a query hands to its parser, or the exception subprocess.run raises. */
  function StdoutOf(q: Query): Result<string> {
    match q
    case Ran(out) => Ok(out)
    case NotStarted => Err(ToolMissing)
    case Undecodable => Err(DecodeFailed)
  }

  /**
   * dashboard: the three queries, each run and then parsed, then the page. A query
   * that cannot run or be decoded, a line that raises, or an index int() rejects
   * fails the request.
   */
  function Dashboard(mapQ: Query, sumQ: Query, procQ: Query, env: Probes): Result<seq<GpuView>> {
    var mapOut :- StdoutOf(mapQ);
    var t :- IndexMapping(mapOut);
    WithMapping(env, t, sumQ, procQ)
  }

  /** The rest of the request once the mapping is read. */
  function WithMapping(env: Probes, t: AliasTables, sumQ: Query, procQ: Query): Result<seq<GpuView>> {
    var sumOut :- StdoutOf(sumQ);
    var info :- Summary(sumOut);
    assert info.Valid();
    WithSummary(env, t, info, procQ)
  }

  /** The rest of the request once the summary is read. */
  function WithSummary(env: Probes, t: AliasTables, info: Dict<string, GpuSummary>, procQ: Query)
    : Result<seq<GpuView>>
    requires info.Valid()
  {
    var procOut :- StdoutOf(procQ);
    var ps :- Processes(procOut);
    Render(env, t, info, ps)
  }

  /** `d[k] += v` on a defaultdict(int): only k's value changes, by v. */
  function AddTo(d: map<string, int>, k: string, v: int): (r: map<string, int>)
    ensures forall j :: Lookup(r, j, 0) == Lookup(d, j, 0) + if j == k then v else 0
  {
    d[k := Lookup(d, k, 0) + v]
  }

  /** `d[k].append(x)` on a defaultdict(list): only k's list changes, by x at its end. */
  function AppendTo(d: map<string, seq<ProcRow>>, k: string, x: ProcRow): (r: map<string, seq<ProcRow>>)
    ensures forall j :: Lookup(r, j, []) == Lookup(d, j, []) + if j == k then [x] else []
  {
    d[k := Lookup(d, k, []) + [x]]
  }

  /** The handler's first pass: the two defaultdicts, keyed by resolved GPU index. */
  method Tally(env: Probes, t: AliasTables, ps: seq<ProcSample>)
    returns (totals: map<string, int>, groups: map<string, seq<ProcRow>>)
    ensures forall idx :: Lookup(totals, idx, 0) == UsedOn(t, ps, idx)
    ensures forall idx :: Lookup(groups, idx, []) == RowsOn(env, t, ps, idx)
  {
    totals, groups := map[], map[];
    var i := 0;
    while i < |ps|
      invariant 0 <= i <= |ps|
      invariant forall idx :: Lookup(totals, idx, 0) == UsedOn(t, ps[..i], idx)
      invariant forall idx :: Lookup(groups, idx, []) == RowsOn(env, t, ps[..i], idx)
    {
      var p := ps[i];
      var cname := Owner(env, p.pid);
      var cmdline := CommandLine(env, p.pid, p.process);
      var idx := ResolveIndex(t, p.uuid, p.busId);
      totals := AddTo(totals, idx, p.mib);
      groups := AppendTo(groups, idx, ProcRow(cname, p.pid, p.mib, cmdline));
      TallySnoc(env, t, ps, i);
      i := i + 1;
    }
    assert ps[..i] == ps;
  }

  /** The handler's second pass: one view per index of `order`, read from the tallies. */
  method ViewLoop(
    env: Probes, t: AliasTables, info: Dict<string, GpuSummary>, ps: seq<ProcSample>,
    totals: map<string, int>, groups: map<string, seq<ProcRow>>, order: seq<string>)
    returns (gpus: seq<GpuView>)
    requires forall x :: x in order ==> x in info.entries
    requires forall idx :: Lookup(totals, idx, 0) == UsedOn(t, ps, idx)
    requires forall idx :: Lookup(groups, idx, []) == RowsOn(env, t, ps, idx)
    ensures gpus == Views(env, t, info, ps, order)
  {
    gpus := [];
    var i := 0;
    while i < |order|
      invariant 0 <= i <= |order|
      invariant gpus == Views(env, t, info, ps, order[..i])
    {
      var idx := order[i];
      var s := info.entries[idx];
      var used := Lookup(totals, idx, 0);
      var view := GpuView(idx, s.name, s.memoryTotal, used, Percent(used, s.memoryTotal), s.gpuUtil, Lookup(groups, idx, []));
      ViewsSnoc(env, t, info, ps, order, i);
      gpus := gpus + [view];
      i := i + 1;
    }
    assert order[..i] == order;
  }

  /** The sort of the summary's indices, then the second pass. */
  method RenderPage(
    env: Probes, t: AliasTables, info: Dict<string, GpuSummary>, ps: seq<ProcSample>,
    totals: map<string, int>, groups: map<string, seq<ProcRow>>)
    returns (r: Result<seq<GpuView>>)
    requires info.Valid()
    requires forall idx :: Lookup(totals, idx, 0) == UsedOn(t, ps, idx)
    requires forall idx :: Lookup(groups, idx, []) == RowsOn(env, t, ps, idx)
    ensures r == Render(env, t, info, ps)
  {
    var order :- SortByInt(info.keys);
    SortedKeysPresent(info);
    var gpus := ViewLoop(env, t, info, ps, totals, groups, order);
    return Ok(gpus);
  }

  /** The handler: the three queries in turn, then the two passes. */
  method DashboardPage(mapQ: Query, sumQ: Query, procQ: Query, env: Probes) returns (r: Result<seq<GpuView>>)
    ensures r == Dashboard(mapQ, sumQ, procQ, env)
  {
    var mapOut :- StdoutOf(mapQ);
    var t :- GetIndexMapping(mapOut);
    r := PageWithMapping(env, t, sumQ, procQ);
  }

  method PageWithMapping(env: Probes, t: AliasTables, sumQ: Query, procQ: Query) returns (r: Result<seq<GpuView>>)
    ensures r == WithMapping(env, t, sumQ, procQ)
  {
    var sumOut :- StdoutOf(sumQ);
    var info :- GetSummary(sumOut);
    r := PageWithSummary(env, t, info, procQ);
  }

  method PageWithSummary(env: Probes, t: AliasTables, info: Dict<string, GpuSummary>, procQ: Query)
    returns (r: Result<seq<GpuView>>)
    requires info.Valid()
    ensures r == WithSummary(env, t, info, procQ)
  {
    var procOut :- StdoutOf(procQ);
    var ps :- GetProcesses(procOut);
    var totals, groups := Tally(env, t, ps);
    r := RenderPage(env, t, info, ps, totals, groups);
  }

  function Indices(gpus: seq<GpuView>): seq<string> {
    seq(|gpus|, i requires 0 <= i < |gpus| => gpus[i].index)
  }

  /** "unknown", the index of unattributed processes, is not an integer. */
  lemma UnknownIsNotAnInt()
    ensures PyInt("unknown").None?
  {
    StripUnchanged("unknown");
    assert !IsDigit("unknown"[0]);
  }

  /** A page that renders is the render of the three queries, each of which ran and parsed. */
  lemma DashboardRenders(mapQ: Query, sumQ: Query, procQ: Query, env: Probes)
    requires Dashboard(mapQ, sumQ, procQ, env).Ok?
    ensures mapQ.Ran? && sumQ.Ran? && procQ.Ran?
    ensures IndexMapping(mapQ.stdout).Ok? && Summary(sumQ.stdout).Ok? && Processes(procQ.stdout).Ok?
    ensures Summary(sumQ.stdout).value.Valid()
    ensures Render(env, IndexMapping(mapQ.stdout).value, Summary(sumQ.stdout).value, Processes(procQ.stdout).value)
            == Dashboard(mapQ, sumQ, procQ, env)
  {
    MappingStep(mapQ, sumQ, procQ, env);
    var t := IndexMapping(mapQ.stdout).value;
    SummaryStep(env, t, sumQ, procQ);
    ProcessesStep(env, t, Summary(sumQ.stdout).value, procQ);
  }

  lemma MappingStep(mapQ: Query, sumQ: Query, procQ: Query, env: Probes)
    requires Dashboard(mapQ, sumQ, procQ, env).Ok?
    ensures mapQ.Ran? && IndexMapping(mapQ.stdout).Ok?
    ensures WithMapping(env, IndexMapping(mapQ.stdout).value, sumQ, procQ) == Dashboard(mapQ, sumQ, procQ, env)
  {
  }

  lemma SummaryStep(env: Probes, t: AliasTables, sumQ: Query, procQ: Query)
    requires WithMapping(env, t, sumQ, procQ).Ok?
    ensures sumQ.Ran? && Summary(sumQ.stdout).Ok? && Summary(sumQ.stdout).value.Valid()
    ensures WithSummary(env, t, Summary(sumQ.stdout).value, procQ) == WithMapping(env, t, sumQ, procQ)
  {
  }

  lemma ProcessesStep(env: Probes, t: AliasTables, info: Dict<string, GpuSummary>, procQ: Query)
    requires info.Valid() && WithSummary(env, t, info, procQ).Ok?
    ensures procQ.Ran? && Processes(procQ.stdout).Ok?
    ensures Render(env, t, info, Processes(procQ.stdout).value) == WithSummary(env, t, info, procQ)
  {
  }

  /**
   * The queries run in order and the first one that fails decides: an nvidia-smi
   * that cannot start, or output that is not text, fails the request with that
   * exception, whatever the later queries would return.
   */
  lemma DashboardQueryFails(mapQ: Query, sumQ: Query, procQ: Query, env: Probes)
    ensures !mapQ.Ran? ==> Dashboard(mapQ, sumQ, procQ, env) == StdoutOf(mapQ).PropagateFailure()
    ensures mapQ.Ran? && IndexMapping(mapQ.stdout).Ok? && !sumQ.Ran? ==>
      Dashboard(mapQ, sumQ, procQ, env) == StdoutOf(sumQ).PropagateFailure()
    ensures mapQ.Ran? && IndexMapping(mapQ.stdout).Ok? && sumQ.Ran? && Summary(sumQ.stdout).Ok? && !procQ.Ran? ==>
      Dashboard(mapQ, sumQ, procQ, env) == StdoutOf(procQ).PropagateFailure()
    ensures mapQ.NotStarted? ==> Dashboard(mapQ, sumQ, procQ, env) == Err(ToolMissing)
    ensures mapQ.Undecodable? ==> Dashboard(mapQ, sumQ, procQ, env) == Err(DecodeFailed)
  {
  }

  /**
   * How the page shows GPU g: the figures of its summary entry, the memory and rows
   * of the processes counted on it, and the percentage they make of its memory.
   */
  ghost predicate Shows(env: Probes, t: AliasTables, info: Dict<string, GpuSummary>, ps: seq<ProcSample>, g: GpuView) {
    && g.index in info.entries
    && g.name == info.entries[g.index].name
    && g.total == info.entries[g.index].memoryTotal
    && g.util == info.entries[g.index].gpuUtil
    && g.used == UsedOn(t, ps, g.index)
    && g.processes == RowsOn(env, t, ps, g.index)
    && (g.total != 0 ==> g.percent * (g.total as real) == (g.used as real) * 100.0)
    && (g.total == 0 ==> g.percent == 0.0)
  }

  /** The views follow the given order, each showing its GPU. */
  lemma ViewsShow(env: Probes, t: AliasTables, info: Dict<string, GpuSummary>, ps: seq<ProcSample>, order: seq<string>)
    requires forall x :: x in order ==> x in info.entries
    ensures Indices(Views(env, t, info, ps, order)) == order
    ensures forall i :: 0 <= i < |order| ==> Shows(env, t, info, ps, Views(env, t, info, ps, order)[i])
  {
    var gpus := Views(env, t, info, ps, order);
    forall i | 0 <= i < |order|
      ensures Shows(env, t, info, ps, gpus[i])
    {
      PercentMeaning(gpus[i].used, gpus[i].total);
    }
  }

  /**
   * A rendered page lists every summary index once, in non-decreasing int order,
   * never the "unknown" slot, and shows each GPU.
   */
  lemma RenderSpec(env: Probes, t: AliasTables, info: Dict<string, GpuSummary>, ps: seq<ProcSample>)
    requires info.Valid() && Render(env, t, info, ps).Ok?
    ensures
      var gpus := Render(env, t, info, ps).value;
      && multiset(Indices(gpus)) == multiset(info.keys)
      && (forall i, j :: 0 <= i < j < |gpus| ==> IntKey(gpus[i].index) <= IntKey(gpus[j].index))
      && (forall i :: 0 <= i < |gpus| ==> gpus[i].index != "unknown" && Shows(env, t, info, ps, gpus[i]))
  {
    var order := SortByInt(info.keys).value;
    SortedKeysPresent(info);
    ViewsShow(env, t, info, ps, order);
    var gpus := Render(env, t, info, ps).value;
    assert gpus == Views(env, t, info, ps, order);
    UnknownIsNotAnInt();
    forall i | 0 <= i < |gpus|
      ensures gpus[i].index == order[i] && gpus[i].index != "unknown"
    {
      assert Indices(gpus)[i] == order[i];
      assert order[i] in multiset(info.keys);
      assert order[i] in info.keys;
    }
  }

  /**
   * When no two indices spell the same integer, as nvidia-smi's do not, each GPU is
   * shown once and the indices strictly ascend.
   */
  lemma RenderStrictOrder(env: Probes, t: AliasTables, info: Dict<string, GpuSummary>, ps: seq<ProcSample>)
    requires info.Valid() && Render(env, t, info, ps).Ok?
    requires forall a, b :: (a in info.keys && b in info.keys && IntKey(a) == IntKey(b)) ==> a == b
    ensures
      var gpus := Render(env, t, info, ps).value;
      && Distinct(Indices(gpus))
      && forall i, j :: 0 <= i < j < |gpus| ==> IntKey(gpus[i].index) < IntKey(gpus[j].index)
  {
    var gpus := Render(env, t, info, ps).value;
    assert Indices(gpus) == SortByInt(info.keys).value;
    SortedStrictly(info.keys);
  }

  /**
   * Indices that spell the same integer ("1" and "01") keep the order in which the
   * summary first listed them, as Python's stable sort keeps them.
   */
  lemma RenderStable(env: Probes, t: AliasTables, info: Dict<string, GpuSummary>, ps: seq<ProcSample>, a: string, b: string)
    requires info.Valid() && Render(env, t, info, ps).Ok?
    requires Before(info.keys, a, b) && IntKey(a) == IntKey(b)
    ensures Before(Indices(Render(env, t, info, ps).value), a, b)
  {
    assert Indices(Render(env, t, info, ps).value) == SortByInt(info.keys).value;
    SortByIntStable(info.keys, a, b);
  }
}
