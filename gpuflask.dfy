/**
 * The JSON process monitor (server/gpu-monitoring/flask): one record per GPU process,
 * with the GPU index from a uuid map and the container found by looking for a
 * container's pid as a substring of the process's cgroup text.
 */
module GpuFlask {
  import opened Common
  import opened PyStr
  import opened Csv
  import opened PyDict

  /** How a `subprocess.check_output` call ended. */
  datatype Invocation =
    | Output(stdout: string)  // exit status 0, with this standard output
    | NonZeroExit             // CalledProcessError
    | Unavailable             // the program could not be started (OSError)
    | Undecodable             // `.decode()` of its output failed (UnicodeDecodeError)

  // ---------------------------------------------------------------------------
  // get_gpu_uuid_map

  datatype UuidPair = UuidPair(uuid: string, index: string)

  /** `line.split(",")[0].strip(): line.split(",")[1].strip()`; [1] raises on a line without a comma. */
  function UuidPairOf(line: string): Result<Option<UuidPair>> {
    var parts := Split(line, ',');
    if |parts| < 2 then Err(MissingField) else Ok(Some(UuidPair(Strip(parts[0]), Strip(parts[1]))))
  }

  function PairUuid(p: UuidPair): string { p.uuid }
  function PairIndex(p: UuidPair): string { p.index }

  /**
   * get_gpu_uuid_map: {} when the query fails or its output cannot be decoded (the
   * bare except covers both), otherwise
   * the dict comprehension over the stripped output's lines.
   */
  function UuidMap(inv: Invocation): Result<map<string, string>> {
    match inv
    case Output(out) =>
      var pairs :- ParseLines(Lines(out), UuidPairOf);
      Ok(Collect(pairs, PairUuid, PairIndex).entries)
    case _ => Ok(map[])
  }

  /** A line of the uuid query: a pair of its first two stripped fields, or IndexError without a comma. */
  lemma UuidPairShape(line: string)
    ensures UuidPairOf(line).Ok? <==> ',' in line
    ensures UuidPairOf(line).Ok? ==>
      Keeps(UuidPairOf, line) && ValueOf(UuidPairOf, line) == UuidPair(Column(line, 0), Column(line, 1))
  {
    SplitPieces(line, ',');
    assert ',' in line <==> multiset(line)[','] > 0;
  }

  /**
   * The comprehension raises exactly when some line has no comma; empty output, the
   * single line "", is such a line.
   */
  lemma UuidMapFails(out: string)
    ensures UuidMap(Output(out)).Ok? <==> forall i :: 0 <= i < |Lines(out)| ==> ',' in Lines(out)[i]
  {
    var lines := Lines(out);
    ParseLinesOutcome(lines, UuidPairOf);
    forall i | 0 <= i < |lines|
      ensures UuidPairOf(lines[i]).Ok? <==> ',' in lines[i]
    {
      UuidPairShape(lines[i]);
    }
  }

  /** With empty output the map raises rather than coming back empty. */
  lemma UuidMapEmptyOutput()
    ensures UuidMap(Output("")).Err?
  {
    UuidMapFails("");
    StripUnchanged("");
    assert Lines("") == [""];
  }

  /** A uuid no later line repeats maps to its own line's second field. */
  lemma UuidMapLastWins(out: string, i: nat)
    requires UuidMap(Output(out)).Ok? && i < |Lines(out)|
    requires forall j :: i < j < |Lines(out)| ==> Column(Lines(out)[j], 0) != Column(Lines(out)[i], 0)
    ensures Column(Lines(out)[i], 0) in UuidMap(Output(out)).value
    ensures UuidMap(Output(out)).value[Column(Lines(out)[i], 0)] == Column(Lines(out)[i], 1)
  {
    var lines := Lines(out);
    ParseLinesOutcome(lines, UuidPairOf);
    forall j | 0 <= j < |lines|
      ensures Keeps(UuidPairOf, lines[j]) && ValueOf(UuidPairOf, lines[j]) == UuidPair(Column(lines[j], 0), Column(lines[j], 1))
    {
      UuidPairShape(lines[j]);
    }
    CollectLinesLast(lines, UuidPairOf, PairUuid, PairIndex, i);
  }

  /** The map's keys are the first fields of the lines. */
  lemma UuidMapKeys(out: string)
    requires UuidMap(Output(out)).Ok?
    ensures UuidMap(Output(out)).value.Keys == set i | 0 <= i < |Lines(out)| :: Column(Lines(out)[i], 0)
  {
    var lines := Lines(out);
    ParseLinesOutcome(lines, UuidPairOf);
    forall j | 0 <= j < |lines|
      ensures Keeps(UuidPairOf, lines[j]) && PairUuid(ValueOf(UuidPairOf, lines[j])) == Column(lines[j], 0)
    {
      UuidPairShape(lines[j]);
    }
    CollectLinesKeys(lines, UuidPairOf, PairUuid, PairIndex);
    SameColumn(lines, UuidPairOf, PairUuid, 0);
  }

  // ---------------------------------------------------------------------------
  // pid_to_container

  /**
   * A container from the docker client's list: `attrs['State']['Pid']` when it can be
   * read (None when reading it raises), and the container's name.
   */
  datatype Container = Container(pid: Option<int>, name: string)

  /** The table the loop leaves: `pid_to_container[str(pid)] = c.name` for each readable container. */
  function PidTableOf(cs: seq<Container>): (d: Dict<string, string>)
    ensures d.Valid()
  {
    if |cs| == 0 then Dict([], map[])
    else
      var d := PidTableOf(cs[..|cs| - 1]);
      var c := cs[|cs| - 1];
      if c.pid.Some? then Put(d, IntToStr(c.pid.value), c.name) else d
  }

  /** What `client.containers.list()` returns, or its failure. */
  datatype Listing = Listed(containers: seq<Container>) | ListFailed

  /** The container list, or the docker error that escapes get_gpu_process_info. */
  function ContainersOf(listing: Listing): Result<seq<Container>> {
    if listing.Listed? then Ok(listing.containers) else Err(DockerFailed)
  }

  /** The loop over client.containers.list(); a container whose pid cannot be read is skipped. */
  method BuildPidTable(cs: seq<Container>) returns (table: Dict<string, string>)
    ensures table == PidTableOf(cs)
  {
    table := Dict([], map[]);
    var i := 0;
    while i < |cs|
      invariant 0 <= i <= |cs|
      invariant table == PidTableOf(cs[..i])
    {
      assert cs[..i + 1][..i] == cs[..i];
      var c := cs[i];
      if c.pid.None? {
        i := i + 1;
        continue;
      }
      table := Put(table, IntToStr(c.pid.value), c.name);
      i := i + 1;
    }
    assert cs[..i] == cs;
  }

  /** Container i's pid is a key of the table exactly when some container with a readable pid has it. */
  lemma {:induction false} PidTableKeys(cs: seq<Container>, k: string)
    ensures k in PidTableOf(cs).entries <==>
      exists i :: 0 <= i < |cs| && cs[i].pid.Some? && IntToStr(cs[i].pid.value) == k
  {
    if |cs| > 0 {
      var init := cs[..|cs| - 1];
      PidTableKeys(init, k);
      if k in PidTableOf(init).entries {
        var i :| 0 <= i < |init| && init[i].pid.Some? && IntToStr(init[i].pid.value) == k;
        assert cs[i] == init[i];
      }
      if exists i :: 0 <= i < |cs| && cs[i].pid.Some? && IntToStr(cs[i].pid.value) == k {
        var i :| 0 <= i < |cs| && cs[i].pid.Some? && IntToStr(cs[i].pid.value) == k;
        if i < |cs| - 1 {
          assert init[i] == cs[i];
        }
      }
    }
  }

  /** A pid no later container repeats maps to its own container's name. */
  lemma {:induction false} PidTableLastWins(cs: seq<Container>, i: nat)
    requires i < |cs| && cs[i].pid.Some?
    requires forall j :: i < j < |cs| && cs[j].pid.Some? ==> cs[j].pid != cs[i].pid
    ensures IntToStr(cs[i].pid.value) in PidTableOf(cs).entries
    ensures PidTableOf(cs).entries[IntToStr(cs[i].pid.value)] == cs[i].name
  {
    var k := IntToStr(cs[i].pid.value);
    var c := cs[|cs| - 1];
    if i < |cs| - 1 {
      var init := cs[..|cs| - 1];
      assert init[i] == cs[i];
      PidTableLastWins(init, i);
      if c.pid.Some? {
        if IntToStr(c.pid.value) == k {
          IntToStrInjective(c.pid.value, cs[i].pid.value);
          assert false;
        }
      }
    }
  }

  /** A container whose pid cannot be read changes nothing: the table is that of the others. */
  lemma {:induction false} PidTableSkips(a: seq<Container>, c: Container, b: seq<Container>)
    requires c.pid.None?
    ensures PidTableOf(a + [c] + b) == PidTableOf(a + b)
    decreases |b|
  {
    if |b| == 0 {
      assert a + [c] + b == a + [c];
      assert (a + [c])[..|a|] == a;
      assert a + b == a;
    } else {
      var b' := b[..|b| - 1];
      PidTableSkips(a, c, b');
      assert (a + [c] + b)[..|a + [c] + b| - 1] == a + [c] + b';
      assert (a + b)[..|a + b| - 1] == a + b';
      assert (a + [c] + b)[|a + [c] + b| - 1] == b[|b| - 1] == (a + b)[|a + b| - 1];
    }
  }

  /**
   * The table iterates in first-insertion order: every pid listed before key b was
   * set by a readable container that comes before every readable container with pid b.
   */
  lemma {:induction false} PidTableOrder(cs: seq<Container>, a: nat, b: nat)
    requires a < b < |PidTableOf(cs).keys|
    ensures exists i :: 0 <= i < |cs| && cs[i].pid.Some? && IntToStr(cs[i].pid.value) == PidTableOf(cs).keys[a]
                        && forall j :: 0 <= j <= i && cs[j].pid.Some? ==> IntToStr(cs[j].pid.value) != PidTableOf(cs).keys[b]
  {
    var d := PidTableOf(cs);
    var init := cs[..|cs| - 1];
    var c := cs[|cs| - 1];
    var d' := PidTableOf(init);
    if c.pid.None? || b < |d'.keys| {
      PidTableOrder(init, a, b);
      var i :| 0 <= i < |init| && init[i].pid.Some? && IntToStr(init[i].pid.value) == d'.keys[a]
               && forall j :: 0 <= j <= i && init[j].pid.Some? ==> IntToStr(init[j].pid.value) != d'.keys[b];
      assert cs[i] == init[i];
      forall j | 0 <= j <= i && cs[j].pid.Some?
        ensures IntToStr(cs[j].pid.value) != d.keys[b]
      {
        assert cs[j] == init[j];
      }
    } else {
      // key b is the last container's pid, new to the table of the others
      var k := IntToStr(c.pid.value);
      assert k !in d'.entries && d.keys == d'.keys + [k];
      assert d.keys[a] in d'.entries;
      PidTableKeys(init, d.keys[a]);
      var i :| 0 <= i < |init| && init[i].pid.Some? && IntToStr(init[i].pid.value) == d.keys[a];
      assert cs[i] == init[i];
      forall j | 0 <= j <= i && cs[j].pid.Some?
        ensures IntToStr(cs[j].pid.value) != d.keys[b]
      {
        assert cs[j] == init[j];
        PidTableKeys(init, IntToStr(cs[j].pid.value));
      }
    }
  }

  // ---------------------------------------------------------------------------
  // attribution

  /** What `/proc/<pid>/cgroup` is for a process. */
  datatype CgroupFile =
    | Absent                  // os.path.exists is false
    | Unopenable              // it exists but open() raises
    | Text(content: string)   // what f.read() returns

  /** The first key, in table order, that occurs in the text. */
  function FirstContained(keys: seq<string>, content: string): Option<string> {
    if |keys| == 0 then None
    else if Contains(content, keys[0]) then Some(keys[0])
    else FirstContained(keys[1..], content)
  }

  /** Key i is returned when it occurs in the text and no key before it does. */
  lemma {:induction false} FirstContainedAt(keys: seq<string>, content: string, i: nat)
    requires i < |keys| && Contains(content, keys[i])
    requires forall j :: 0 <= j < i ==> !Contains(content, keys[j])
    ensures FirstContained(keys, content) == Some(keys[i])
  {
    if i > 0 {
      assert forall j :: 0 <= j < i - 1 ==> keys[1..][j] == keys[j + 1];
      FirstContainedAt(keys[1..], content, i - 1);
    }
  }

  /** No key occurs in the text: no container. */
  lemma {:induction false} FirstContainedNone(keys: seq<string>, content: string)
    requires forall j :: 0 <= j < |keys| ==> !Contains(content, keys[j])
    ensures FirstContained(keys, content).None?
  {
    if |keys| > 0 {
      assert forall j :: 0 <= j < |keys| - 1 ==> keys[1..][j] == keys[j + 1];
      FirstContainedNone(keys[1..], content);
    }
  }

  /** A returned key is one of the keys, occurs in the text, and is the first such key. */
  lemma {:induction false} FirstContainedFirst(keys: seq<string>, content: string)
    requires FirstContained(keys, content).Some?
    ensures exists i :: 0 <= i < |keys| && keys[i] == FirstContained(keys, content).value
                        && Contains(content, keys[i]) && forall j :: 0 <= j < i ==> !Contains(content, keys[j])
  {
    if !Contains(content, keys[0]) {
      FirstContainedFirst(keys[1..], content);
      var i :| 0 <= i < |keys[1..]| && keys[1..][i] == FirstContained(keys, content).value
               && Contains(content, keys[1..][i]) && forall j :: 0 <= j < i ==> !Contains(content, keys[1..][j]);
      assert keys[i + 1] == keys[1..][i];
      forall j | 0 <= j < i + 1
        ensures !Contains(content, keys[j])
      {
        if j > 0 {
          assert keys[j] == keys[1..][j - 1];
        }
      }
    } else {
      assert keys[0] == FirstContained(keys, content).value;
    }
  }

  /**
   * The container of one process: "N/A" when the table is empty, the file absent or no
   * key occurs in the text; the name of the first occurring key otherwise. Opening a
   * file that cannot be read raises, but only when the table has a key to try.
   */
  function Attribute(table: Dict<string, string>, file: CgroupFile): Result<string>
    requires table.Valid()
  {
    if |table.keys| == 0 then Ok("N/A")
    else
      match file
      case Absent => Ok("N/A")
      case Unopenable => Err(Unreadable)
      case Text(content) =>
        match FirstContained(table.keys, content)
        case None => Ok("N/A")
        case Some(k) =>
          assert k in table.keys by {
            FirstContainedFirst(table.keys, content);
          }
          Ok(table.entries[k])
  }

  /** The inner loop: test each table pid against the cgroup text, stop at the first hit. */
  method AttributeLoop(table: Dict<string, string>, file: CgroupFile) returns (r: Result<string>)
    requires table.Valid()
    ensures r == Attribute(table, file)
  {
    var container := "N/A";
    var k := 0;
    while k < |table.keys|
      invariant 0 <= k <= |table.keys|
      invariant k > 0 ==> !file.Unopenable?
      invariant file.Text? ==> forall j :: 0 <= j < k ==> !Contains(file.content, table.keys[j])
    {
      if file.Absent? {
        k := k + 1;
        continue;
      }
      if file.Unopenable? {
        return Err(Unreadable);
      }
      if Contains(file.content, table.keys[k]) {
        FirstContainedAt(table.keys, file.content, k);
        container := table.entries[table.keys[k]];
        return Ok(container);
      }
      k := k + 1;
    }
    if file.Text? {
      FirstContainedNone(table.keys, file.content);
    }
    return Ok(container);
  }

  /** Attribution names the container of the first table pid in the text, and only then. */
  lemma AttributeSpec(table: Dict<string, string>, content: string, i: nat)
    requires table.Valid() && i < |table.keys|
    requires Contains(content, table.keys[i])
    requires forall j :: 0 <= j < i ==> !Contains(content, table.keys[j])
    ensures Attribute(table, Text(content)) == Ok(table.entries[table.keys[i]])
  {
    FirstContainedAt(table.keys, content, i);
  }

  /** Attribution is "N/A" when no table pid occurs in the text. */
  lemma AttributeNone(table: Dict<string, string>, content: string)
    requires table.Valid()
    requires forall j :: 0 <= j < |table.keys| ==> !Contains(content, table.keys[j])
    ensures Attribute(table, Text(content)) == Ok("N/A")
  {
    FirstContainedNone(table.keys, content);
  }

  /**
   * Attribution raises exactly when there is a pid to try and the file cannot be
   * opened; a container it names belongs to a table pid that occurs in the text.
   */
  lemma AttributeOutcome(table: Dict<string, string>, file: CgroupFile)
    requires table.Valid()
    ensures Attribute(table, file).Err? <==> |table.keys| > 0 && file.Unopenable?
    ensures Attribute(table, file).Ok? && Attribute(table, file).value != "N/A" ==>
      file.Text? && exists i :: 0 <= i < |table.keys| && Contains(file.content, table.keys[i])
                                && table.entries[table.keys[i]] == Attribute(table, file).value
  {
    if |table.keys| > 0 && file.Text? && FirstContained(table.keys, file.content).Some? {
      FirstContainedFirst(table.keys, file.content);
    }
  }

  // ---------------------------------------------------------------------------
  // get_gpu_process_info

  /** One entry of the JSON list. */
  datatype Record = Record(gpuIndex: string, container: string, pid: string, process: string, gpu: string, memory: int)

  /** What the per-line loop needs besides the line. */
  datatype Context = Context(uuidMap: map<string, string>, table: Dict<string, string>, files: map<string, CgroupFile>)

  /**
   * One line of `--query-compute-apps=pid,process_name,gpu_uuid,used_gpu_memory`:
   * skipped unless it has four fields; then the GPU index, the container and int(mem),
   * in that order, any of which may raise.
   */
  function RecordOf(ctx: Context, line: string): Result<Option<Record>>
    requires ctx.table.Valid()
  {
    var parts := Fields(line);
    if |parts| != 4 then Ok(None)
    else
      var gpuIdx := Lookup(ctx.uuidMap, parts[2], "N/A");
      var container :- Attribute(ctx.table, Lookup(ctx.files, parts[0], Absent));
      match PyInt(parts[3])
      case None => Err(NotAnInteger)
      case Some(mem) => Ok(Some(Record(gpuIdx, container, parts[0], parts[1], parts[2], mem)))
  }

  /**
   * get_gpu_process_info: a failed query gives []; a query that cannot start or whose
   * output cannot be decoded raises; otherwise the uuid map, the container list (whose
   * failure raises), the pid table and one record per four-field line.
   */
  function ProcessInfo(smi: Invocation, uuidQuery: Invocation, listing: Listing, files: map<string, CgroupFile>)
    : Result<seq<Record>>
  {
    match smi
    case Unavailable => Err(ToolMissing)
    case Undecodable => Err(DecodeFailed)
    case NonZeroExit => Ok([])
    case Output(out) =>
      var uuidMap :- UuidMap(uuidQuery);
      var cs :- ContainersOf(listing);
      var ctx := Context(uuidMap, PidTableOf(cs), files);
      ParseLines(Lines(out), line => RecordOf(ctx, line))
  }

  /** The loop over the process lines. */
  method RecordLoop(ctx: Context, lines: seq<string>) returns (r: Result<seq<Record>>)
    requires ctx.table.Valid()
    ensures r == ParseLines(lines, line => RecordOf(ctx, line))
  {
    var row := line => RecordOf(ctx, line);
    var result: seq<Record> := [];
    var i := 0;
    while i < |lines|
      invariant 0 <= i <= |lines|
      invariant ParseLines(lines[..i], row) == Ok(result)
    {
      var parts := Fields(lines[i]);
      if |parts| != 4 {
        ParseLinesSnoc(lines, row, i);
        assert result + [] == result;
        i := i + 1;
        continue;
      }
      var gpuIdx := Lookup(ctx.uuidMap, parts[2], "N/A");
      var container := AttributeLoop(ctx.table, Lookup(ctx.files, parts[0], Absent));
      if container.Err? {
        ParseLinesRaises(lines, row, i);
        return Err(container.error);
      }
      var mem := PyInt(parts[3]);
      if mem.None? {
        ParseLinesRaises(lines, row, i);
        return Err(NotAnInteger);
      }
      ParseLinesSnoc(lines, row, i);
      result := result + [Record(gpuIdx, container.value, parts[0], parts[1], parts[2], mem.value)];
      i := i + 1;
    }
    assert lines[..i] == lines;
    return Ok(result);
  }

  /** get_gpu_process_info, step by step. */
  method GetProcessInfo(smi: Invocation, uuidQuery: Invocation, listing: Listing, files: map<string, CgroupFile>)
    returns (r: Result<seq<Record>>)
    ensures r == ProcessInfo(smi, uuidQuery, listing, files)
  {
    if smi.Unavailable? {
      return Err(ToolMissing);
    }
    if smi.Undecodable? {
      return Err(DecodeFailed);
    }
    if smi.NonZeroExit? {
      return Ok([]);
    }
    var uuidMap :- UuidMap(uuidQuery);
    var cs :- ContainersOf(listing);
    var table := BuildPidTable(cs);
    var ctx := Context(uuidMap, table, files);
    r := RecordLoop(ctx, Lines(smi.stdout));
  }

  /** A process line: skipped unless it has four fields; a kept line's record copies its fields. */
  lemma RecordShape(ctx: Context, line: string)
    requires ctx.table.Valid()
    ensures |Fields(line)| != 4 ==> RecordOf(ctx, line) == Ok(None)
    ensures Keeps(line => RecordOf(ctx, line), line) ==>
      && |Fields(line)| == 4
      && var r := ValueOf(line => RecordOf(ctx, line), line);
      && r.gpuIndex == Lookup(ctx.uuidMap, Column(line, 2), "N/A")
      && Attribute(ctx.table, Lookup(ctx.files, Column(line, 0), Absent)) == Ok(r.container)
      && r.pid == Column(line, 0) && r.process == Column(line, 1) && r.gpu == Column(line, 2)
      && PyInt(Column(line, 3)) == Some(r.memory)
  {
  }

  /**
   * When the request succeeds on query output, there is one record per four-field line,
   * in line order, each with the uuid map's index or "N/A", the attributed container,
   * the copied pid, name and uuid, and int() of the memory field.
   */
  lemma ProcessInfoRecords(out: string, uuidQuery: Invocation, cs: seq<Container>, files: map<string, CgroupFile>)
    requires ProcessInfo(Output(out), uuidQuery, Listed(cs), files).Ok?
    ensures var ctx := Context(UuidMap(uuidQuery).value, PidTableOf(cs), files);
      var kept := Kept(Lines(out), line => RecordOf(ctx, line));
      var recs := ProcessInfo(Output(out), uuidQuery, Listed(cs), files).value;
      && (forall l :: l in kept <==> l in Lines(out) && |Fields(l)| == 4)
      && |recs| == |kept|
      && forall k :: 0 <= k < |kept| ==>
           && recs[k].gpuIndex == Lookup(ctx.uuidMap, Column(kept[k], 2), "N/A")
           && Attribute(ctx.table, Lookup(files, Column(kept[k], 0), Absent)) == Ok(recs[k].container)
           && recs[k].pid == Column(kept[k], 0) && recs[k].process == Column(kept[k], 1)
           && recs[k].gpu == Column(kept[k], 2) && PyInt(Column(kept[k], 3)) == Some(recs[k].memory)
  {
    var ctx := Context(UuidMap(uuidQuery).value, PidTableOf(cs), files);
    var row := line => RecordOf(ctx, line);
    var lines := Lines(out);
    var kept := Kept(lines, row);
    ParseLinesOutcome(lines, row);
    forall l | l in lines
      ensures Keeps(row, l) <==> |Fields(l)| == 4
    {
      RecordShape(ctx, l);
    }
    ParseLinesKept(lines, row);
    forall k | 0 <= k < |kept| {
      RecordShape(ctx, kept[k]);
    }
  }

  /**
   * On query output, with the uuid map built, the request fails exactly when some
   * four-field line has a cgroup file that cannot be opened (with a pid to try) or a
   * memory field int() rejects.
   */
  lemma ProcessInfoFails(out: string, uuidQuery: Invocation, cs: seq<Container>, files: map<string, CgroupFile>)
    requires UuidMap(uuidQuery).Ok?
    ensures ProcessInfo(Output(out), uuidQuery, Listed(cs), files).Ok? <==>
      forall i :: 0 <= i < |Lines(out)| && |Fields(Lines(out)[i])| == 4 ==>
        && Attribute(PidTableOf(cs), Lookup(files, Column(Lines(out)[i], 0), Absent)).Ok?
        && PyInt(Column(Lines(out)[i], 3)).Some?
  {
    var ctx := Context(UuidMap(uuidQuery).value, PidTableOf(cs), files);
    var row := line => RecordOf(ctx, line);
    var lines := Lines(out);
    ParseLinesOutcome(lines, row);
    forall i | 0 <= i < |lines|
      ensures row(lines[i]).Ok? <==> (|Fields(lines[i])| == 4 ==>
        && Attribute(PidTableOf(cs), Lookup(files, Column(lines[i], 0), Absent)).Ok?
        && PyInt(Column(lines[i], 3)).Some?)
    {
    }
  }

  /**
   * The failures before the line loop: the compute-apps query that cannot start or be
   * decoded raises, one that exits non-zero gives [], and a failed container list
   * raises once the uuid map is built.
   */
  lemma ProcessInfoEarlyExits(smi: Invocation, uuidQuery: Invocation, listing: Listing, files: map<string, CgroupFile>)
    ensures smi.Unavailable? ==> ProcessInfo(smi, uuidQuery, listing, files) == Err(ToolMissing)
    ensures smi.Undecodable? ==> ProcessInfo(smi, uuidQuery, listing, files) == Err(DecodeFailed)
    ensures smi.NonZeroExit? ==> ProcessInfo(smi, uuidQuery, listing, files) == Ok([])
    ensures smi.Output? && UuidMap(uuidQuery).Ok? && listing.ListFailed? ==>
      ProcessInfo(smi, uuidQuery, listing, files) == Err(DockerFailed)
  {
  }
}
