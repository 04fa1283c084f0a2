# GPU monitor bookkeeping, modelled in Dafny

The repository has three small GPU monitors. Each one runs external tools
(`nvidia-smi`, `docker`, `ps`, `ssh`) and does deterministic bookkeeping on what
they print. This project models that bookkeeping. A tool's output is an input
string, a small datatype (`Invocation`, `Outcome`, `CgroupFile`) or an oracle
map or function (`Probes`, `run`, `decode`).

- `GpuText` (`server/gpu-monitoring/flask-text/app.py`) is the text dashboard.
  - It parses three `nvidia-smi` CSV queries: the uuid/bus-id→index alias tables, the
    GPU summary and the compute processes.
  - It attributes each process to a container. The first of three cgroup patterns that
    matches gives an id, and `docker inspect` turns the id into a name.
  - It resolves each process's command line with `ps`.
  - It resolves the GPU index in the order uuid, bus id, `"unknown"`.
  - It sums memory per index, and guards the percentage against a zero total.
  - It lists the GPUs in ascending integer order of their index.
- `GpuFlask` (`server/gpu-monitoring/flask/app.py`) is the JSON process monitor.
  - It builds a uuid→index map and a pid→container table.
  - For each four-field process line it emits one record. The container is the name of
    the first table pid whose text occurs in the process's cgroup file.
- `Fanout` (`server/gpu-monitoring/gpu-dashboard/app.py`) is the multi-host dashboard.
  - It assembles the ssh argv and classifies each outcome as timeout, non-zero exit,
    empty output, JSON error, non-list or list.
  - It applies the configuration defaults (user `ubuntu`, port 22) and bounds the
    worker count.
  - It merges the reports in completion order. The items of every ok report get the
    seven `setdefault` defaults.

Shared modules:
- `Common`: `Option`, `Result` and the Python exceptions that escape the monitors.
- `PyStr`: `strip`/`lstrip`, `split`, `int()`, `str()`, `in` and `[:n]`.
- `Csv`: the CSV lines and fields, and the row loop that raises, skips or appends.
- `PyDict`: insertion-ordered dicts where the last assignment wins.
- `Cgroup`: the three regular expressions, written as matchers.
- `KeySort`: `sorted(..., key=int)`.

Each loop in the source that accumulates state is a method with loop invariants. Its
`ensures` ties the result to a specification function, and the lemmas state the
properties of that function. One loop is the exception: the cgroup pattern loop
returns at its first match, so it is the recursive function `Cgroup.FirstMatch`.

An external program that cannot be started (`OSError`), or whose output is not valid
text (`UnicodeDecodeError`), is an input case of its own: `GpuText.Query`,
`GpuFlask.Invocation` and `Fanout.Outcome`. A failed `client.containers.list()` is
`GpuFlask.ListFailed`. The ssh oracle is told which server it is running for, so two
entries with the same host, user and port may still end differently.

Behaviour a reader may not expect; the model follows the code as written:
- `get_gpu_index_mapping` and `get_gpu_summary` unpack each line into a fixed number of
  fields. A line with any other count raises, so the whole page fails; it is not skipped.
  Empty `nvidia-smi` output is one empty line, so it raises too
  (`IndexMappingEmptyOutput`, `SummaryEmptyOutput`).
- `get_gpu_uuid_map` raises `IndexError` on a line without a comma, including empty
  output (`UuidMapEmptyOutput`). The `try` covers only the tool call.
- A memory field that `int()` rejects raises. The row is not dropped.
- A timeout is reported as `"SSH timeout"`.
- Exit 0 with output that is not JSON is `ok=false` with `"JSON parse error: …"`.
- An `ssh` that cannot be started (`OSError`), or whose output is not valid text, is not
  caught. It fails the whole request.
- An `nvidia-smi` in the text dashboard that cannot be started, or whose output is not
  valid text, fails the page (`DashboardQueryFails`).
- An ok host whose data list holds a non-object makes `setdefault` raise. That fails the
  whole request (`OneHostFailsAll`), so host isolation stops there.
- The substring-attribution monitor's sentinel is `"N/A"`, not `"unknown"`.
- The third cgroup pattern can never decide an id. Any text it matches is also matched by
  the second pattern, which is tried first (`ContainerIdShape`): a third-pattern match at
  position i is a second-pattern match at i+4 with the same id
  (`ParentScopeIsSystemdScope`).
- Strict ascent of the GPU indices needs no two indices that spell the same integer
  (`RenderStrictOrder`). Otherwise the order is non-decreasing (`RenderSpec`), and indices
  that spell the same integer keep their summary order, as Python's stable sort keeps
  them (`RenderStable`).

## Model

| member | source | states |
|---|---|---|
| `GpuText.GetIndexMapping` | server/gpu-monitoring/flask-text/app.py:42-47 | The loop fills both dicts line by line. Its result is the fold in which the last line with a key wins, or the exception of the first line without three fields. |
| `GpuText.IndexMappingFails` | server/gpu-monitoring/flask-text/app.py:43-44 | The mapping succeeds exactly when every line of the stripped output has three comma-separated fields. |
| `GpuText.IndexMappingEmptyOutput` | server/gpu-monitoring/flask-text/app.py:43-44 | Empty query output makes the mapping raise. |
| `GpuText.IndexMappingKeys` | server/gpu-monitoring/flask-text/app.py:43-46 | The uuid dict's keys are exactly the lines' first fields. The bus-id dict's keys are exactly the lines' second fields. |
| `GpuText.UuidLastWins` | server/gpu-monitoring/flask-text/app.py:44-45 | A uuid that no later line repeats maps to its own line's index field. |
| `GpuText.BusLastWins` | server/gpu-monitoring/flask-text/app.py:44-46 | A bus id that no later line repeats maps to its own line's index field. |
| `GpuText.AliasRowShape` | server/gpu-monitoring/flask-text/app.py:44 | A line unpacks exactly when it has three fields, into its stripped fields 0, 1 and 2. |
| `GpuText.GetSummary` | server/gpu-monitoring/flask-text/app.py:54-58 | The loop builds `gpu_info` in key insertion order. Its result is the fold in which the last line wins, or the first line's exception. |
| `GpuText.SummaryRowShape` | server/gpu-monitoring/flask-text/app.py:56-57 | A line is kept exactly when it has four fields and its total and utilization are integers. It yields its index, name, `int(total)` and `int(util)`. |
| `GpuText.SummaryFails` | server/gpu-monitoring/flask-text/app.py:55-57 | The summary succeeds exactly when every line has four fields and an integer total and utilization. |
| `GpuText.SummaryEmptyOutput` | server/gpu-monitoring/flask-text/app.py:55-56 | Empty query output makes the summary raise. |
| `GpuText.SummaryKeys` | server/gpu-monitoring/flask-text/app.py:54-57 | The summary holds each index once, and its keys are exactly the lines' first fields. |
| `GpuText.SummaryLastWins` | server/gpu-monitoring/flask-text/app.py:55-57 | An index that no later line repeats holds its own line's name, total and utilization. |
| `GpuText.GetProcesses` | server/gpu-monitoring/flask-text/app.py:66-75 | The loop appends one sample per five-field line and skips the other lines. A non-integer memory field raises. |
| `GpuText.ProcSampleShape` | server/gpu-monitoring/flask-text/app.py:68-74 | A line is kept exactly when it has five fields. A kept line's sample is its five stripped fields, with `int(mem)`. |
| `GpuText.ProcessesFails` | server/gpu-monitoring/flask-text/app.py:67-73 | The process list raises exactly when some five-field line has a memory field that is not an integer. |
| `GpuText.ProcessesEmptyOutput` | server/gpu-monitoring/flask-text/app.py:67-69 | Empty query output gives no processes and no exception. |
| `GpuText.ProcessesKeptLines` | server/gpu-monitoring/flask-text/app.py:67-70 | The lines that yield a sample are exactly the five-field lines. |
| `GpuText.ProcessesValues` | server/gpu-monitoring/flask-text/app.py:67-74 | There is one sample per kept line, in input order, made of that line's fields. |
| `GpuText.ContainerNameSpec` | server/gpu-monitoring/flask-text/app.py:77-100 | There is a name exactly when the cgroup file was read, a pattern matched and `docker inspect` ran. The name is the stripped output with every leading `/` removed. |
| `GpuText.OwnerSpec` | server/gpu-monitoring/flask-text/app.py:125 | The container shown is never empty. It is the resolved name when that is non-empty, else `"unknown"`. |
| `GpuText.CommandLineSpec` | server/gpu-monitoring/flask-text/app.py:126 | The command shown is the stripped `ps` output when that is non-empty. When `ps` failed or printed nothing, it is the raw process name. |
| `GpuText.ResolveIndexSpec` | server/gpu-monitoring/flask-text/app.py:127 | The index is the uuid lookup if non-empty, else the bus-id lookup if non-empty, else `"unknown"`. It is never empty. |
| `GpuText.AddTo` | server/gpu-monitoring/flask-text/app.py:128 | `d[k] += v` on a `defaultdict(int)` changes only k's value, by v. |
| `GpuText.AppendTo` | server/gpu-monitoring/flask-text/app.py:129-131 | `d[k].append(x)` on a `defaultdict(list)` changes only k's list, by x at its end. |
| `GpuText.Tally` | server/gpu-monitoring/flask-text/app.py:116-131 | After the first pass, each index's total is the memory of the processes resolved to it. Each index's list holds their rows in process order. |
| `GpuText.UsedIsListedSum` | server/gpu-monitoring/flask-text/app.py:128-131 | A GPU's used memory equals the sum of the memory of the rows listed under it. |
| `GpuText.IdleGpu` | server/gpu-monitoring/flask-text/app.py:136-146 | A GPU with no process resolved to it has 0 MiB used and an empty process list. |
| `GpuText.RowsOnMembers` | server/gpu-monitoring/flask-text/app.py:129-131 | Every process resolved to an index is listed under it. Everything listed under an index is the row of such a process. |
| `GpuText.PercentMeaning` | server/gpu-monitoring/flask-text/app.py:137 | The percentage is 0 when the total is 0. Otherwise it is used / total × 100. |
| `GpuText.ViewLoop` | server/gpu-monitoring/flask-text/app.py:134-147 | The second pass emits one view per index in the given order, read from the two tallies. |
| `GpuText.RenderPage` | server/gpu-monitoring/flask-text/app.py:133-147 | The page sorts the summary's indices by `int()`, which raises on a non-integer index, and then runs the second pass. |
| `GpuText.DashboardPage` | server/gpu-monitoring/flask-text/app.py:111-147 | The handler runs and parses the three queries in turn, then both passes. Its result is the page of the parsed queries, or the first exception. |
| `GpuText.DashboardRenders` | server/gpu-monitoring/flask-text/app.py:112-114 | A page that renders comes from three queries that all ran. It is the render of their parsed output. |
| `GpuText.DashboardQueryFails` | server/gpu-monitoring/flask-text/app.py:38-65 | The first query that cannot start (`OSError`) or be decoded (`UnicodeDecodeError`) fails the page with that exception, whatever the later queries return. |
| `GpuText.ViewsShow` | server/gpu-monitoring/flask-text/app.py:134-147 | The views follow the order given. Each view shows its summary's name, total and utilization, its used memory, its process rows and the guarded percentage. |
| `GpuText.UnknownIsNotAnInt` | server/gpu-monitoring/flask-text/app.py:127 | The `"unknown"` slot is not an integer, so it cannot be a summary index that sorts. |
| `GpuText.RenderSpec` | server/gpu-monitoring/flask-text/app.py:133-147 | The page lists every summary index exactly as often as the summary does, in non-decreasing `int()` order. It never lists `"unknown"`, and it shows each GPU. |
| `GpuText.RenderStrictOrder` | server/gpu-monitoring/flask-text/app.py:134 | When no two indices spell the same integer, each GPU appears once and the indices strictly ascend. |
| `GpuText.RenderStable` | server/gpu-monitoring/flask-text/app.py:134 | Indices that spell the same integer keep the order in which the summary first listed them. |
| `KeySort.SortByInt` | server/gpu-monitoring/flask-text/app.py:134 | The sort raises exactly when some key is not an integer. Otherwise it returns a permutation of the keys, sorted by `int()`. |
| `KeySort.InsertSorted` | server/gpu-monitoring/flask-text/app.py:134 | Inserting into a sorted sequence keeps it sorted. |
| `KeySort.InsertionSortSorted` | server/gpu-monitoring/flask-text/app.py:134 | The stable sort's output is sorted by key. |
| `KeySort.InsertBefore` | server/gpu-monitoring/flask-text/app.py:134 | Inserting x puts it in front of every element whose key is not below x's. |
| `KeySort.InsertKeeps` | server/gpu-monitoring/flask-text/app.py:134 | Inserting an element keeps the relative order of the others. |
| `KeySort.InsertionSortStable` | server/gpu-monitoring/flask-text/app.py:134 | The sort is stable: elements with equal keys keep their input order. |
| `KeySort.SortByIntStable` | server/gpu-monitoring/flask-text/app.py:134 | Like Python's `sorted`, keys that spell the same integer keep their input order. |
| `KeySort.SortedStrictly` | server/gpu-monitoring/flask-text/app.py:134 | Distinct keys with distinct integer values sort into strictly ascending order, without repeats. |
| `Cgroup.MatchAt` | server/gpu-monitoring/flask-text/app.py:84-86 | A match at an offset captures 12 to 64 hex digits, and exactly 64 for the third pattern. |
| `Cgroup.MatchAtIff` | server/gpu-monitoring/flask-text/app.py:84-86 | The matcher reports an id at an offset exactly when the text there reads prefix + id + suffix. The id is hex of the allowed length, and the greedy `{12,64}` of the first pattern took every hex digit it could. |
| `Cgroup.SearchFromLeftmost` | server/gpu-monitoring/flask-text/app.py:89 | `re.search` returns the leftmost offset where the pattern matches. No hit means it matches at no offset. |
| `Cgroup.FirstMatchDecides` | server/gpu-monitoring/flask-text/app.py:88-91 | The id comes from the first pattern, in list order, that matches anywhere. No id means that no pattern matches. |
| `Cgroup.ParentScopeIsSystemdScope` | server/gpu-monitoring/flask-text/app.py:85-86 | Wherever the third pattern matches, the second matches four characters later with the same id. |
| `Cgroup.ContainerIdShape` | server/gpu-monitoring/flask-text/app.py:83-91 | An extracted id always comes from the first or second pattern and is 12 to 64 hex digits. |
| `PyStr.StripTrims` | server/gpu-monitoring/flask-text/app.py:44 | `strip()` returns an infix of its input. Everything it removes is whitespace, and the result has no whitespace at either end. |
| `PyStr.LStripChar` | server/gpu-monitoring/flask-text/app.py:96 | `lstrip("/")` removes the leading `/` characters and nothing else. |
| `PyStr.SplitPieces` | server/gpu-monitoring/flask-text/app.py:44 | `split(sep)` gives one more piece than there are separators, and no piece holds the separator. |
| `PyStr.JoinSplit` | server/gpu-monitoring/flask-text/app.py:43 | Joining the pieces of a split gives back the string. |
| `PyStr.SplitJoin` | server/gpu-monitoring/flask-text/app.py:44 | Splitting joined pieces that hold no separator gives back the pieces. |
| `PyStr.IntToStrRoundTrip` | server/gpu-monitoring/flask/app.py:38 | `int(str(n)) == n`. |
| `PyStr.IntToStrInjective` | server/gpu-monitoring/flask/app.py:38 | Distinct pids give distinct table keys `str(pid)`. |
| `PyStr.ContainsIff` | server/gpu-monitoring/flask/app.py:56 | `p in s` holds exactly when p occurs in s at some offset. |
| `PyStr.Truncate` | server/gpu-monitoring/gpu-dashboard/app.py:41 | `s[:n]` is the prefix of s of length n, or all of s when s is no longer than n. |
| `Csv.ParseLinesOutcome` | server/gpu-monitoring/flask-text/app.py:43-46 | The row loop finishes exactly when no line raises. Otherwise it fails with the exception of the first line that raises. |
| `Csv.ParseLinesKept` | server/gpu-monitoring/flask-text/app.py:67-74 | When nothing raises, there is one value per kept line, in the kept lines' order. |
| `Csv.KeptAppend` | server/gpu-monitoring/flask-text/app.py:67-69 | Filtering respects concatenation, so the kept lines stay in input order. |
| `Csv.ParseLinesAppend` | server/gpu-monitoring/flask-text/app.py:67-74 | The rows of two blocks of lines are the rows of the first block followed by those of the second. |
| `PyDict.CollectKeys` | server/gpu-monitoring/flask-text/app.py:54-57 | The dict's keys are exactly the rows' keys. |
| `PyDict.CollectLastWins` | server/gpu-monitoring/flask-text/app.py:45-46 | The key of a row that no later row reassigns holds that row's value. |
| `PyDict.CollectOrder` | server/gpu-monitoring/flask-text/app.py:57 | Iteration follows first-insertion order. |
| `GpuFlask.UuidPairShape` | server/gpu-monitoring/flask/app.py:20 | A line gives a pair exactly when it has a comma. The pair is its first stripped field mapped to its second. |
| `GpuFlask.UuidMapFails` | server/gpu-monitoring/flask/app.py:20 | The comprehension raises exactly when some line has no comma. |
| `GpuFlask.UuidMapEmptyOutput` | server/gpu-monitoring/flask/app.py:16-20 | Empty query output makes the comprehension raise rather than return `{}`. |
| `GpuFlask.UuidMapLastWins` | server/gpu-monitoring/flask/app.py:20 | A uuid that no later line repeats maps to its line's second field. |
| `GpuFlask.UuidMapKeys` | server/gpu-monitoring/flask/app.py:20 | The map's keys are exactly the lines' first fields. |
| `GpuFlask.BuildPidTable` | server/gpu-monitoring/flask/app.py:34-40 | The loop skips containers whose pid cannot be read. It sets `str(pid)` to the name for the others. |
| `GpuFlask.PidTableKeys` | server/gpu-monitoring/flask/app.py:34-40 | A key is in the table exactly when some container with a readable pid has that `str(pid)`. |
| `GpuFlask.PidTableLastWins` | server/gpu-monitoring/flask/app.py:38 | A pid that no later container repeats maps to its own container's name. |
| `GpuFlask.PidTableOrder` | server/gpu-monitoring/flask/app.py:34-40 | The table iterates in first-insertion order. Each pid listed before another was set by a readable container that comes before every readable container with the later pid. |
| `GpuFlask.PidTableSkips` | server/gpu-monitoring/flask/app.py:36-40 | A container whose pid cannot be read leaves the table as the other containers make it. |
| `GpuFlask.FirstContainedFirst` | server/gpu-monitoring/flask/app.py:52-58 | A returned key occurs in the text, and no key before it in table order does. |
| `GpuFlask.AttributeLoop` | server/gpu-monitoring/flask/app.py:50-58 | The inner loop tries each table pid against the cgroup text and stops at the first hit. It raises only when there is a pid to try and the file cannot be opened. |
| `GpuFlask.AttributeSpec` | server/gpu-monitoring/flask/app.py:52-58 | The container is the name of the first table pid, in table order, that occurs in the text. |
| `GpuFlask.AttributeNone` | server/gpu-monitoring/flask/app.py:50 | The container is `"N/A"` when no table pid occurs in the text. |
| `GpuFlask.AttributeOutcome` | server/gpu-monitoring/flask/app.py:50-58 | Attribution raises exactly when the table is non-empty and the file cannot be opened. A named container belongs to a table pid that occurs in the text. |
| `GpuFlask.RecordLoop` | server/gpu-monitoring/flask/app.py:42-69 | The line loop skips lines without four fields, and appends one record per remaining line or stops at the first exception. |
| `GpuFlask.GetProcessInfo` | server/gpu-monitoring/flask/app.py:22-69 | A failed query gives `[]`. A query that cannot start or be decoded raises, and so does a failed container list. Otherwise the result is the uuid map, the pid table and one record per four-field line. |
| `GpuFlask.ProcessInfoEarlyExits` | server/gpu-monitoring/flask/app.py:23-35 | The failures before the line loop: a query that cannot start or be decoded raises, a non-zero exit gives `[]`, and a failed container list raises. |
| `GpuFlask.RecordShape` | server/gpu-monitoring/flask/app.py:44-67 | A line without four fields is skipped. A kept line's record copies pid, name and uuid, looks up the index or gives `"N/A"`, and has `int(mem)`. |
| `GpuFlask.ProcessInfoRecords` | server/gpu-monitoring/flask/app.py:43-67 | There is one record per four-field line, in line order. Each has the uuid-map index or `"N/A"`, the attributed container, the copied fields and the integer memory. |
| `GpuFlask.ProcessInfoFails` | server/gpu-monitoring/flask/app.py:43-66 | The request fails exactly when some four-field line has an unopenable cgroup file (with a pid to try) or a non-integer memory field. |
| `Fanout.SshArgvShape` | server/gpu-monitoring/gpu-dashboard/app.py:26-27 | The argv is `ssh`, `-p`, the port (reading back as the port), the options in order, `user@host` and the command. Nothing else is in it. |
| `Fanout.ClassifySpec` | server/gpu-monitoring/gpu-dashboard/app.py:29-75 | Every report carries its host. A report is ok exactly when ssh exited 0 with empty or parseable output. A failed report has no data, and an ok one has no error. Only a launch failure or undecodable output raises. |
| `Fanout.ClassifyErrors` | server/gpu-monitoring/gpu-dashboard/app.py:37-75 | A timeout gives `"SSH timeout"`. A non-zero exit gives the first 800 characters of stripped stderr, or of stdout when stderr is empty. A JSON error gives `"JSON parse error: "` followed by the message. |
| `Fanout.ClassifyData` | server/gpu-monitoring/gpu-dashboard/app.py:48-58 | On exit 0, the data is empty for empty output or a non-list value, and the parsed list unchanged otherwise. |
| `Fanout.JobOfSpec` | server/gpu-monitoring/gpu-dashboard/app.py:100-102 | A job has its server's host, the user or `"ubuntu"`, and `int()` of the port or 22. A missing host or non-integer port raises. |
| `Fanout.WorkerCount` | server/gpu-monitoring/gpu-dashboard/app.py:94 | The pool size lies in [1,16]: 1 for no servers, n for 1 to 16 servers, 16 beyond that. |
| `Fanout.Submit` | server/gpu-monitoring/gpu-dashboard/app.py:95-106 | One future per server, in configuration order, or the first server entry's exception. |
| `Fanout.NormalizeSpec` | server/gpu-monitoring/gpu-dashboard/app.py:113-119 | Normalizing keeps every present key and its value. It adds exactly the missing defaulted keys, after the present ones, and raises on a non-object. |
| `Fanout.NormalizeDefaults` | server/gpu-monitoring/gpu-dashboard/app.py:113-119 | Each missing field gets its default: host, -1, `"unknown"`, `"root"`, 0, 0 or `"unknown"`. |
| `Fanout.NormalizeIdempotent` | server/gpu-monitoring/gpu-dashboard/app.py:113-119 | A normalized row normalizes to itself. |
| `Fanout.NormalizeItems` | server/gpu-monitoring/gpu-dashboard/app.py:111-119 | The inner loop normalizes each item of an ok report in order, or fails at the first non-object. |
| `Fanout.ServedSpec` | server/gpu-monitoring/gpu-dashboard/app.py:110-120 | A served report keeps its host, flag and error. An ok report's items are normalized one by one. |
| `Fanout.ServedDefaults` | server/gpu-monitoring/gpu-dashboard/app.py:110-120 | Every item of a served ok report has every defaulted field. |
| `Fanout.MergeLoop` | server/gpu-monitoring/gpu-dashboard/app.py:107-120 | The completion loop appends each report to `results` and the normalized items of each ok report to `rows`, in completion order. |
| `Fanout.MergeFails` | server/gpu-monitoring/gpu-dashboard/app.py:107-120 | The merge finishes exactly when no future raised and no ok report has a non-object item. |
| `Fanout.MergeServes` | server/gpu-monitoring/gpu-dashboard/app.py:107-109 | A finished merge holds one served report per future, in completion order. |
| `Fanout.MergeRows` | server/gpu-monitoring/gpu-dashboard/app.py:110-120 | The rows are the items of the ok reports, report by report. |
| `Fanout.RowsOfMembers` | server/gpu-monitoring/gpu-dashboard/app.py:110-120 | Every row is an item of an ok report, and every item of an ok report is a row. |
| `Fanout.OneHostFailsAll` | server/gpu-monitoring/gpu-dashboard/app.py:107-120 | One ok report with a non-object item fails the whole request. So does one ssh that cannot start or whose output cannot be decoded. |
| `Fanout.OrderCovers` | server/gpu-monitoring/gpu-dashboard/app.py:107 | A completion order of n futures names every one of them. |
| `Fanout.GetMetrics` | server/gpu-monitoring/gpu-dashboard/app.py:84-123 | The handler builds the jobs, runs ssh per job and merges in completion order. |
| `Fanout.ApiMetricsReports` | server/gpu-monitoring/gpu-dashboard/app.py:94-109 | On success there is one report per configured server. The k-th report is the served classification of the ssh run of the server that completed k-th. That run is the server's own: it is indexed by the server's position. |
| `Fanout.ApiMetricsHosts` | server/gpu-monitoring/gpu-dashboard/app.py:96-109 | The k-th report names the configured host of the server that completed k-th, and every server is reported. |
| `Fanout.ApiMetricsRows` | server/gpu-monitoring/gpu-dashboard/app.py:107-123 | The rows are exactly the items of the ok reports, in completion order, and every row has every defaulted field. |

## Left out

- Flask routing, `render_template`/`render_template_string` and the HTML template. They are presentation only.
- Running `nvidia-smi`, `docker inspect`, `ps`, `ssh` and the docker SDK client. They are foreign processes. Their outputs are parameters: strings, `Invocation`, `Outcome`, `CgroupFile`, `Container`, and the oracle maps in `Probes`.
- `GpuText.Probes`: the cgroup text, `docker inspect` answer and `ps` answer are maps keyed by pid or container id. A pid that `nvidia-smi` lists twice (one process on two GPUs) is probed again by the source, and the model assumes the repeated probes agree.
- Reading `/proc/<pid>/cgroup`, the `HOST_PROC` environment variable and `load_config`. They are I/O. The cgroup texts and the configuration are parameters.
- `GpuFlask.AttributeLoop`: the source reopens the cgroup file for every table pid. The model reads it once, so a file that changes between reads is not captured.
- `ThreadPoolExecutor`/`as_completed` concurrency. The completion order is a parameter (`order`), and the merge is a sequential loop over it. The pool size is modelled by `WorkerCount` only.
- `Fanout.Served`: `setdefault` mutates the dicts that are also inside `results`. The model builds the served report by value, with the same contents.
- Timestamps and `elapsed_ms`. They come from the clock.
- `GpuText.PercentMeaning`: `round(..., 1)` on floats is not modelled. The percentage is the exact real ratio, with the zero-total guard.
- Regular expressions in general. Only the three fixed cgroup patterns are modelled, as hand-written matchers.
- JSON parsing. It is the `decode` oracle (`Invalid(msg)` or `Parsed(value)`), and JSON numbers are integers.
- `Fanout.IntOf`: `int()` of a float port is not modelled. Numbers are integers here.
- `GpuFlask.Container`: the pid read from `attrs['State']['Pid']` is modelled as an integer or unreadable.
- Exception logging with `print`.
- `PyStr.PyInt`: it accepts only ASCII digits. Python's `int()` also accepts other Unicode decimal digits, such as Arabic-Indic digits. Those strings are modelled as raising.
- Creating the docker client with `docker.from_env()` at import time. It is process bootstrap, not part of a request.
- The `cmd` query override. It is only an opaque string (`query`).
