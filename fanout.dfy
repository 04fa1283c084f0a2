/**
 * The multi-host dashboard (server/gpu-monitoring/gpu-dashboard): one ssh invocation
 * per configured server, each outcome classified into a per-host report, and the JSON
 * rows of the hosts that answered merged, with missing fields defaulted, in the order
 * the invocations complete.
 */
module Fanout {
  import opened Common
  import opened PyStr
  import opened PyDict

  /** A JSON value as json.loads returns it; numbers are integers here. */
  datatype Json =
    | Null
    | Bool(b: bool)
    | Num(n: int)
    | Str(s: string)
    | Arr(items: seq<Json>)
    | Obj(fields: Dict<string, Json>)

  // ---------------------------------------------------------------------------
  // A loop over a list that may raise at any element

  /** `[f(x) for x in xs]` where f may raise: the first element that raises ends it. */
  function Each<A, B>(xs: seq<A>, f: A -> Result<B>): Result<seq<B>> {
    if |xs| == 0 then Ok([])
    else
      var init :- Each(xs[..|xs| - 1], f);
      var last :- f(xs[|xs| - 1]);
      Ok(init + [last])
  }

  /** The loop finishes exactly when no element raises, with f's value for each element. */
  lemma {:induction false} EachOutcome<A, B>(xs: seq<A>, f: A -> Result<B>)
    ensures Each(xs, f).Ok? <==> forall i :: 0 <= i < |xs| ==> f(xs[i]).Ok?
    ensures Each(xs, f).Ok? ==>
      |Each(xs, f).value| == |xs| && forall i :: 0 <= i < |xs| ==> Each(xs, f).value[i] == f(xs[i]).value
  {
    if |xs| > 0 {
      var init := xs[..|xs| - 1];
      assert forall i :: 0 <= i < |init| ==> init[i] == xs[i];
      EachOutcome(init, f);
    }
  }

  /** One more element that does not raise: its value goes last. */
  lemma EachSnoc<A, B>(xs: seq<A>, f: A -> Result<B>, i: nat)
    requires i < |xs| && Each(xs[..i], f).Ok? && f(xs[i]).Ok?
    ensures Each(xs[..i + 1], f) == Ok(Each(xs[..i], f).value + [f(xs[i]).value])
  {
    var a := xs[..i + 1];
    assert a[..|a| - 1] == xs[..i] && a[|a| - 1] == xs[i];
  }

  /** The first element that raises decides the outcome, whatever follows it. */
  lemma {:induction false} EachRaises<A, B>(xs: seq<A>, f: A -> Result<B>, i: nat)
    requires i < |xs| && Each(xs[..i], f).Ok? && f(xs[i]).Err?
    ensures Each(xs, f) == Err(f(xs[i]).error)
    decreases |xs|
  {
    var init := xs[..|xs| - 1];
    if i < |xs| - 1 {
      assert init[..i] == xs[..i] && init[i] == xs[i];
      EachRaises(init, f, i);
    } else {
      assert init == xs[..i];
    }
  }

  // ---------------------------------------------------------------------------
  // ssh_run

  /** How `subprocess.run(cmd, timeout=12)` ended. */
  datatype Outcome =
    | Timeout                                          // TimeoutExpired
    | Exited(code: int, stdout: string, stderr: string)
    | LaunchFailed                                     // ssh could not be started (OSError)
    | Undecodable                                      // its output is not valid text (UnicodeDecodeError)

  /** What json.loads makes of a non-empty text. */
  datatype Parsed = Invalid(msg: string) | Parsed(value: Json)

  /** The dict ssh_run returns, without its elapsed time. */
  datatype HostReport = HostReport(ok: bool, host: string, error: string, data: seq<Json>)

  /** `["ssh", "-p", str(port), *ssh_options, f"{user}@{host}", remote_cmd]`. */
  function SshArgv(host: string, user: string, port: int, opts: seq<string>, cmd: string): seq<string> {
    ["ssh", "-p", IntToStr(port)] + opts + [user + "@" + host, cmd]
  }

  /** The argv holds the port's digits, the options in order, the target and the command, and nothing else. */
  lemma SshArgvShape(host: string, user: string, port: int, opts: seq<string>, cmd: string)
    ensures var argv := SshArgv(host, user, port, opts, cmd);
      && |argv| == |opts| + 5
      && argv[0] == "ssh" && argv[1] == "-p" && PyInt(argv[2]) == Some(port)
      && argv[3..3 + |opts|] == opts
      && argv[3 + |opts|] == user + "@" + host && argv[4 + |opts|] == cmd
  {
    IntToStrRoundTrip(port);
    var argv := SshArgv(host, user, port, opts, cmd);
    assert argv == (["ssh", "-p", IntToStr(port)] + opts) + [user + "@" + host, cmd];
    assert argv[3..3 + |opts|] == opts;
  }

  /** The body of ssh_run after the process ended (or failed to start). */
  function Classify(host: string, outcome: Outcome, decode: string -> Parsed): Result<HostReport> {
    match outcome
    case LaunchFailed => Err(ToolMissing)
    case Undecodable => Err(DecodeFailed)
    case Timeout => Ok(HostReport(false, host, "SSH timeout", []))
    case Exited(code, stdout, stderr) =>
      if code != 0 then
        Ok(HostReport(false, host, Truncate(Strip(PyOr(Some(PyOr(Some(stderr), stdout)), "")), 800), []))
      else
        var out := Strip(PyOr(Some(stdout), ""));
        if out == "" then Ok(HostReport(true, host, "", []))
        else
          match decode(out)
          case Invalid(msg) => Ok(HostReport(false, host, "JSON parse error: " + msg, []))
          case Parsed(v) => Ok(HostReport(true, host, "", if v.Arr? then v.items else []))
  }

  /**
   * What a report says: it names its host; it fails (raises) only when ssh could not
   * start or its output could not be decoded, neither of which ssh_run catches;
   * it is ok exactly when ssh exited 0 with empty or valid JSON output; a failed
   * report carries no data and an ok one no error.
   */
  lemma ClassifySpec(host: string, outcome: Outcome, decode: string -> Parsed)
    ensures Classify(host, outcome, decode).Err? <==> outcome.LaunchFailed? || outcome.Undecodable?
    ensures Classify(host, outcome, decode).Ok? ==>
      var rep := Classify(host, outcome, decode).value;
      && rep.host == host
      && (rep.ok <==> outcome.Exited? && outcome.code == 0 &&
                      (Strip(outcome.stdout) == "" || decode(Strip(outcome.stdout)).Parsed?))
      && (!rep.ok ==> rep.data == [])
      && (rep.ok ==> rep.error == "")
  {
  }

  /**
   * A non-zero exit reports the stripped stderr, or stdout when stderr is empty, cut
   * to its first 800 characters; a timeout says so; a JSON error says so.
   */
  lemma ClassifyErrors(host: string, outcome: Outcome, decode: string -> Parsed)
    requires Classify(host, outcome, decode).Ok? && !Classify(host, outcome, decode).value.ok
    ensures var e := Classify(host, outcome, decode).value.error;
      && (outcome.Timeout? ==> e == "SSH timeout")
      && (outcome.Exited? && outcome.code != 0 ==>
            var msg := Strip(if outcome.stderr != "" then outcome.stderr else outcome.stdout);
            e <= msg && |e| == (if |msg| <= 800 then |msg| else 800))
      && (outcome.Exited? && outcome.code == 0 ==>
            exists m :: decode(Strip(outcome.stdout)) == Invalid(m) && e == "JSON parse error: " + m)
  {
  }

  /** On exit 0 the data are the parsed list, or nothing when the output is empty or not a list. */
  lemma ClassifyData(host: string, outcome: Outcome, decode: string -> Parsed)
    requires Classify(host, outcome, decode).Ok? && Classify(host, outcome, decode).value.ok
    ensures var d := Classify(host, outcome, decode).value.data;
      var out := Strip(outcome.stdout);
      && (out == "" ==> d == [])
      && (out != "" ==> decode(out).Parsed? && d == (if decode(out).value.Arr? then decode(out).value.items else []))
  {
  }

  // ---------------------------------------------------------------------------
  // api_metrics: configuration

  /** A `servers.json` entry: `host` may be missing, as may `user` and `port`. */
  datatype ServerConf = ServerConf(host: Option<string>, user: Option<string>, port: Option<Json>)

  /** The configuration: `servers` and `ssh_options` may be missing. */
  datatype Config = Config(servers: Option<seq<ServerConf>>, sshOptions: Option<seq<string>>)

  /** The remote command when the request has no `cmd` argument. */
  const DefaultCommand := "/usr/local/bin/gpu_docker_metrics.sh"

  /** int() of a JSON value: a number, a bool (True is 1) or an integer string. */
  function IntOf(j: Json): Option<int> {
    match j
    case Num(n) => Some(n)
    case Bool(b) => Some(if b then 1 else 0)
    case Str(s) => PyInt(s)
    case _ => None
  }

  /** The arguments one `ex.submit(ssh_run, ...)` call passes. */
  datatype Job = Job(host: string, user: string, port: int)

  /** `s["host"]`, `s.get("user", "ubuntu")`, `int(s.get("port", 22))`, in that order. */
  function JobOf(s: ServerConf): Result<Job> {
    if s.host.None? then Err(MissingField)
    else
      match IntOf(s.port.GetOr(Num(22)))
      case None => Err(NotAnInteger)
      case Some(p) => Ok(Job(s.host.value, s.user.GetOr("ubuntu"), p))
  }

  /** A server's job: its host, its user or "ubuntu", its port or 22; no host raises. */
  lemma JobOfSpec(s: ServerConf)
    ensures JobOf(s).Ok? <==> s.host.Some? && (s.port.None? || IntOf(s.port.value).Some?)
    ensures JobOf(s).Ok? ==>
      && JobOf(s).value.host == s.host.value
      && (s.user.None? ==> JobOf(s).value.user == "ubuntu")
      && (s.user.Some? ==> JobOf(s).value.user == s.user.value)
      && (s.port.None? ==> JobOf(s).value.port == 22)
      && (s.port.Some? ==> Some(JobOf(s).value.port) == IntOf(s.port.value))
  {
  }

  /** `max_workers=min(16, max(1, len(servers)))`. */
  function WorkerCount(n: nat): (w: nat)
    ensures 1 <= w <= 16
    ensures n == 0 ==> w == 1
    ensures 1 <= n <= 16 ==> w == n
    ensures n > 16 ==> w == 16
  {
    var atLeastOne := if n < 1 then 1 else n;
    if atLeastOne < 16 then atLeastOne else 16
  }

  /**
   * The task the i-th future runs: ssh_run with the job's arguments. Each server gets
   * its own ssh process, so `run` is told which submission it is running: two entries
   * with the same host, user and port may still end differently.
   */
  function SshRun(i: nat, job: Job, opts: seq<string>, cmd: string, run: (nat, seq<string>) -> Outcome,
                  decode: string -> Parsed)
    : Result<HostReport>
  {
    Classify(job.host, run(i, SshArgv(job.host, job.user, job.port, opts, cmd)), decode)
  }

  /** The futures' results, one per job in submission order. */
  function Reports(jobs: seq<Job>, opts: seq<string>, cmd: string, run: (nat, seq<string>) -> Outcome, decode: string -> Parsed)
    : seq<Result<HostReport>>
  {
    seq(|jobs|, i requires 0 <= i < |jobs| => SshRun(i, jobs[i], opts, cmd, run, decode))
  }

  // ---------------------------------------------------------------------------
  // api_metrics: normalization

  /** `d.setdefault(k, v)`: a missing key is added last with value v; a present one is left alone. */
  function SetDefault(d: Dict<string, Json>, k: string, v: Json): Dict<string, Json> {
    if k in d.entries then d else Dict(d.keys + [k], d.entries[k := v])
  }

  /** The setdefault calls, in order. */
  function SetDefaults(d: Dict<string, Json>, defs: seq<(string, Json)>): Dict<string, Json>
    decreases |defs|
  {
    if |defs| == 0 then d else SetDefaults(SetDefault(d, defs[0].0, defs[0].1), defs[1..])
  }

  /** The dashboard's defaults for a row from `host`. */
  function Defaults(host: string): seq<(string, Json)> {
    [ ("server", Str(host)), ("gpu_idx", Num(-1)), ("container", Str("unknown")),
      ("container_user", Str("root")), ("gpu_util", Num(0)), ("vram_mb", Num(0)),
      ("process", Str("unknown")) ]
  }

  function KeysOf(defs: seq<(string, Json)>): set<string> {
    set i | 0 <= i < |defs| :: defs[i].0
  }

  function DefaultKeys(): set<string> {
    {"server", "gpu_idx", "container", "container_user", "gpu_util", "vram_mb", "process"}
  }

  lemma KeysOfCons(defs: seq<(string, Json)>)
    requires |defs| > 0
    ensures KeysOf(defs) == {defs[0].0} + KeysOf(defs[1..])
  {
    var t := defs[1..];
    forall k | k in KeysOf(defs) ensures k in {defs[0].0} + KeysOf(t) {
      var i :| 0 <= i < |defs| && defs[i].0 == k;
      if i > 0 {
        assert t[i - 1] == defs[i];
      }
    }
    forall k | k in KeysOf(t) ensures k in KeysOf(defs) {
      var i :| 0 <= i < |t| && t[i].0 == k;
      assert defs[i + 1] == t[i];
    }
  }

  /** The seven defaults are seven different keys. */
  lemma DefaultsKeys(host: string)
    ensures KeysOf(Defaults(host)) == DefaultKeys()
    ensures forall i, j :: 0 <= i < j < |Defaults(host)| ==> Defaults(host)[i].0 != Defaults(host)[j].0
  {
    var d := Defaults(host);
    assert forall k :: k in DefaultKeys() ==> exists i :: 0 <= i < 7 && d[i].0 == k by {
      assert d[0].0 == "server" && d[1].0 == "gpu_idx" && d[2].0 == "container";
      assert d[3].0 == "container_user" && d[4].0 == "gpu_util" && d[5].0 == "vram_mb" && d[6].0 == "process";
    }
  }

  /** setdefault never changes a key already present. */
  lemma {:induction false} SetDefaultsKeeps(d: Dict<string, Json>, defs: seq<(string, Json)>, k: string)
    requires k in d.entries
    ensures k in SetDefaults(d, defs).entries && SetDefaults(d, defs).entries[k] == d.entries[k]
    decreases |defs|
  {
    if |defs| > 0 {
      SetDefaultsKeeps(SetDefault(d, defs[0].0, defs[0].1), defs[1..], k);
    }
  }

  /** The keys afterwards are the keys before and the defaulted keys, nothing else. */
  lemma {:induction false} SetDefaultsKeys(d: Dict<string, Json>, defs: seq<(string, Json)>)
    ensures SetDefaults(d, defs).entries.Keys == d.entries.Keys + KeysOf(defs)
    decreases |defs|
  {
    if |defs| > 0 {
      SetDefaultsKeys(SetDefault(d, defs[0].0, defs[0].1), defs[1..]);
      KeysOfCons(defs);
    }
  }

  /** A key missing before gets the value of its first setdefault. */
  lemma {:induction false} SetDefaultsAdds(d: Dict<string, Json>, defs: seq<(string, Json)>, i: nat)
    requires i < |defs| && defs[i].0 !in d.entries
    requires forall j :: 0 <= j < i ==> defs[j].0 != defs[i].0
    ensures defs[i].0 in SetDefaults(d, defs).entries && SetDefaults(d, defs).entries[defs[i].0] == defs[i].1
    decreases |defs|
  {
    var d' := SetDefault(d, defs[0].0, defs[0].1);
    if i == 0 {
      SetDefaultsKeeps(d', defs[1..], defs[0].0);
    } else {
      assert defs[1..][i - 1] == defs[i];
      assert forall j :: 0 <= j < i - 1 ==> defs[1..][j] == defs[j + 1];
      SetDefaultsAdds(d', defs[1..], i - 1);
    }
  }

  /** Present keys keep their place in the key order; added keys come after them. */
  lemma {:induction false} SetDefaultsOrder(d: Dict<string, Json>, defs: seq<(string, Json)>)
    ensures d.keys <= SetDefaults(d, defs).keys
    ensures d.Valid() ==> SetDefaults(d, defs).Valid()
    decreases |defs|
  {
    if |defs| > 0 {
      var d' := SetDefault(d, defs[0].0, defs[0].1);
      SetDefaultsOrder(d', defs[1..]);
      if d.Valid() && defs[0].0 !in d.entries {
        assert defs[0].0 !in d.keys;
        forall i, j | 0 <= i < j < |d'.keys| ensures d'.keys[i] != d'.keys[j] {
          if j == |d.keys| {
            assert d'.keys[i] == d.keys[i];
          }
        }
      }
    }
  }

  /** When every defaulted key is present, the setdefault calls change nothing. */
  lemma {:induction false} SetDefaultsPresent(d: Dict<string, Json>, defs: seq<(string, Json)>)
    requires KeysOf(defs) <= d.entries.Keys
    ensures SetDefaults(d, defs) == d
    decreases |defs|
  {
    if |defs| > 0 {
      KeysOfCons(defs);
      SetDefaultsPresent(d, defs[1..]);
    }
  }

  /** The seven setdefault calls on one item; an item that is not an object raises. */
  function Normalize(item: Json, host: string): Result<Json> {
    if item.Obj? then Ok(Obj(SetDefaults(item.fields, Defaults(host)))) else Err(NotADict)
  }

  /** A normalized row: an object with every defaulted key. */
  predicate HasDefaults(j: Json) {
    j.Obj? && DefaultKeys() <= j.fields.entries.Keys
  }

  /**
   * Normalization keeps every present key and its value, adds exactly the missing
   * defaulted keys (after the present ones), and raises on anything but an object.
   */
  lemma NormalizeSpec(item: Json, host: string)
    ensures Normalize(item, host).Ok? <==> item.Obj?
    ensures item.Obj? ==>
      var f := Normalize(item, host).value.fields;
      && HasDefaults(Normalize(item, host).value)
      && f.entries.Keys == item.fields.entries.Keys + DefaultKeys()
      && (forall k :: k in item.fields.entries ==> k in f.entries && f.entries[k] == item.fields.entries[k])
      && item.fields.keys <= f.keys
      && (item.fields.Valid() ==> f.Valid())
  {
    if item.Obj? {
      var f := Normalize(item, host).value.fields;
      SetDefaultsKeys(item.fields, Defaults(host));
      DefaultsKeys(host);
      SetDefaultsOrder(item.fields, Defaults(host));
      forall k | k in item.fields.entries
        ensures k in f.entries && f.entries[k] == item.fields.entries[k]
      {
        SetDefaultsKeeps(item.fields, Defaults(host), k);
      }
    }
  }

  /** Each missing field gets the dashboard's default for it. */
  lemma NormalizeDefaults(item: Json, host: string)
    requires item.Obj?
    ensures var before := item.fields.entries;
      var f := Normalize(item, host).value.fields.entries;
      && ("server" !in before ==> Get(f, "server") == Some(Str(host)))
      && ("gpu_idx" !in before ==> Get(f, "gpu_idx") == Some(Num(-1)))
      && ("container" !in before ==> Get(f, "container") == Some(Str("unknown")))
      && ("container_user" !in before ==> Get(f, "container_user") == Some(Str("root")))
      && ("gpu_util" !in before ==> Get(f, "gpu_util") == Some(Num(0)))
      && ("vram_mb" !in before ==> Get(f, "vram_mb") == Some(Num(0)))
      && ("process" !in before ==> Get(f, "process") == Some(Str("unknown")))
  {
    var defs := Defaults(host);
    DefaultsKeys(host);
    SetDefaultsKeys(item.fields, defs);
    forall i | 0 <= i < |defs| && defs[i].0 !in item.fields.entries
      ensures SetDefaults(item.fields, defs).entries[defs[i].0] == defs[i].1
    {
      SetDefaultsAdds(item.fields, defs, i);
    }
    assert defs[0].0 == "server" && defs[1].0 == "gpu_idx" && defs[2].0 == "container";
    assert defs[3].0 == "container_user" && defs[4].0 == "gpu_util" && defs[5].0 == "vram_mb" && defs[6].0 == "process";
  }

  /** A normalized row normalizes to itself, whatever host the second pass names. */
  lemma NormalizeIdempotent(item: Json, host: string, host': string)
    requires Normalize(item, host).Ok?
    ensures Normalize(Normalize(item, host).value, host') == Normalize(item, host)
  {
    NormalizeSpec(item, host);
    DefaultsKeys(host');
    SetDefaultsPresent(Normalize(item, host).value.fields, Defaults(host'));
  }

  // ---------------------------------------------------------------------------
  // api_metrics: merging in completion order

  /** The response's view of one report: an ok report's items, normalized in place. */
  function Served(rep: HostReport): Result<HostReport> {
    if rep.ok then
      var items :- Each(rep.data, item => Normalize(item, rep.host));
      Ok(rep.(data := items))
    else Ok(rep)
  }

  /** What jsonify returns besides the timestamp. */
  datatype Snapshot = Snapshot(servers: seq<HostReport>, rows: seq<Json>)

  /** The rows of a list of reports: every item of every ok report, report by report. */
  function RowsOf(reports: seq<HostReport>): seq<Json> {
    if |reports| == 0 then []
    else
      var last := reports[|reports| - 1];
      RowsOf(reports[..|reports| - 1]) + if last.ok then last.data else []
  }

  /** `order` lists each of n futures once: the order in which as_completed yields them. */
  predicate IsOrder(order: seq<nat>, n: nat) {
    && |order| == n
    && (forall k :: 0 <= k < |order| ==> order[k] < n)
    && (forall k, l :: 0 <= k < l < |order| ==> order[k] != order[l])
  }

  /**
   * `for f in as_completed(futs)`: f.result() re-raises what ssh_run raised; an ok
   * report's items are normalized and appended to rows.
   */
  function Merge(reports: seq<Result<HostReport>>, order: seq<nat>): Result<Snapshot>
    requires forall k :: 0 <= k < |order| ==> order[k] < |reports|
  {
    if |order| == 0 then Ok(Snapshot([], []))
    else
      var acc :- Merge(reports, order[..|order| - 1]);
      var rep :- reports[order[|order| - 1]];
      var shown :- Served(rep);
      Ok(Snapshot(acc.servers + [shown], acc.rows + if shown.ok then shown.data else []))
  }

  /** The report served for a completed future, when it and its items do not raise. */
  predicate Completes(r: Result<HostReport>) {
    r.Ok? && Served(r.value).Ok?
  }

  /** The merge finishes exactly when no future raised and no ok report has an item that is not an object. */
  lemma {:induction false} MergeFails(reports: seq<Result<HostReport>>, order: seq<nat>)
    requires forall k :: 0 <= k < |order| ==> order[k] < |reports|
    ensures Merge(reports, order).Ok? <==> forall k :: 0 <= k < |order| ==> Completes(reports[order[k]])
  {
    if |order| > 0 {
      var init := order[..|order| - 1];
      assert forall k :: 0 <= k < |init| ==> init[k] == order[k];
      MergeFails(reports, init);
    }
  }

  /** A finished merge holds one served report per future, in completion order. */
  lemma {:induction false} MergeServes(reports: seq<Result<HostReport>>, order: seq<nat>)
    requires forall k :: 0 <= k < |order| ==> order[k] < |reports|
    requires Merge(reports, order).Ok?
    ensures var snap := Merge(reports, order).value;
      && |snap.servers| == |order|
      && forall k :: 0 <= k < |order| ==> Completes(reports[order[k]]) && snap.servers[k] == Served(reports[order[k]].value).value
  {
    if |order| > 0 {
      var init := order[..|order| - 1];
      assert forall k :: 0 <= k < |init| ==> init[k] == order[k];
      MergeServes(reports, init);
    }
  }

  /** The rows of a finished merge are the items of its ok reports, report by report. */
  lemma {:induction false} MergeRows(reports: seq<Result<HostReport>>, order: seq<nat>)
    requires forall k :: 0 <= k < |order| ==> order[k] < |reports|
    requires Merge(reports, order).Ok?
    ensures Merge(reports, order).value.rows == RowsOf(Merge(reports, order).value.servers)
  {
    if |order| > 0 {
      var init := order[..|order| - 1];
      MergeRows(reports, init);
      var snap := Merge(reports, order).value;
      var acc := Merge(reports, init).value;
      assert snap.servers[..|snap.servers| - 1] == acc.servers;
    }
  }

  /**
   * Host isolation stops at normalization: one ok report with an item that is not an
   * object (a JSON list such as [1]) makes setdefault raise and fails the whole
   * request, whatever the other hosts returned; so does a host whose ssh could not start
   * or whose output could not be decoded.
   */
  lemma OneHostFailsAll(reports: seq<Result<HostReport>>, order: seq<nat>, k: nat)
    requires forall l :: 0 <= l < |order| ==> order[l] < |reports|
    requires k < |order|
    requires reports[order[k]].Err? ||
             (reports[order[k]].value.ok && exists i :: 0 <= i < |reports[order[k]].value.data| && !reports[order[k]].value.data[i].Obj?)
    ensures Merge(reports, order).Err?
  {
    MergeFails(reports, order);
    if reports[order[k]].Ok? {
      ServedSpec(reports[order[k]].value);
    }
  }

  /** One more completed future. */
  lemma MergeSnoc(reports: seq<Result<HostReport>>, order: seq<nat>, k: nat)
    requires forall l :: 0 <= l < |order| ==> order[l] < |reports|
    requires k < |order| && Merge(reports, order[..k]).Ok? && Completes(reports[order[k]])
    ensures var acc := Merge(reports, order[..k]).value;
      var shown := Served(reports[order[k]].value).value;
      Merge(reports, order[..k + 1]) == Ok(Snapshot(acc.servers + [shown], acc.rows + if shown.ok then shown.data else []))
  {
    var a := order[..k + 1];
    assert a[..|a| - 1] == order[..k] && a[|a| - 1] == order[k];
  }

  /** The first future whose result raises (or whose items do) decides the outcome. */
  lemma {:induction false} MergeRaises(reports: seq<Result<HostReport>>, order: seq<nat>, k: nat, e: PyError)
    requires forall l :: 0 <= l < |order| ==> order[l] < |reports|
    requires k < |order| && Merge(reports, order[..k]).Ok?
    requires reports[order[k]] == Err(e) || (reports[order[k]].Ok? && Served(reports[order[k]].value) == Err(e))
    ensures Merge(reports, order) == Err(e)
    decreases |order|
  {
    var init := order[..|order| - 1];
    if k < |order| - 1 {
      assert init[..k] == order[..k] && init[k] == order[k];
      MergeRaises(reports, init, k, e);
    } else {
      assert init == order[..k];
    }
  }

  /** Served keeps the host, the flag and the error; an ok report's items are normalized one by one. */
  lemma ServedSpec(rep: HostReport)
    ensures Served(rep).Ok? <==> !rep.ok || forall i :: 0 <= i < |rep.data| ==> rep.data[i].Obj?
    ensures Served(rep).Ok? ==>
      var s := Served(rep).value;
      && s.ok == rep.ok && s.host == rep.host && s.error == rep.error && |s.data| == |rep.data|
      && (!rep.ok ==> s.data == rep.data)
      && (rep.ok ==> forall i :: 0 <= i < |rep.data| ==> s.data[i] == Normalize(rep.data[i], rep.host).value)
  {
    var f := item => Normalize(item, rep.host);
    EachOutcome(rep.data, f);
    forall i | 0 <= i < |rep.data|
      ensures f(rep.data[i]).Ok? <==> rep.data[i].Obj?
    {
    }
  }

  /** Every row comes from an ok report, and every item of an ok report is a row. */
  lemma {:induction false} RowsOfMembers(reports: seq<HostReport>)
    ensures forall x :: x in RowsOf(reports) <==> exists k :: 0 <= k < |reports| && reports[k].ok && x in reports[k].data
  {
    if |reports| > 0 {
      var init := reports[..|reports| - 1];
      assert forall k :: 0 <= k < |init| ==> init[k] == reports[k];
      RowsOfMembers(init);
    }
  }

  // ---------------------------------------------------------------------------
  // api_metrics

  /**
   * api_metrics without the timestamp: the jobs are built in configuration order
   * (raising on a bad entry), then the futures are merged in completion order.
   */
  function ApiMetrics(cfg: Config, query: Option<string>, run: (nat, seq<string>) -> Outcome,
                      decode: string -> Parsed, order: seq<nat>): Result<Snapshot>
    requires IsOrder(order, |cfg.servers.GetOr([])|)
  {
    var servers := cfg.servers.GetOr([]);
    var jobs :- Each(servers, JobOf);
    EachOutcome(servers, JobOf);
    Merge(Reports(jobs, cfg.sshOptions.GetOr([]), query.GetOr(DefaultCommand), run, decode), order)
  }

  /** The submission loop: one future per server, in configuration order. */
  method Submit(servers: seq<ServerConf>, opts: seq<string>, cmd: string, run: (nat, seq<string>) -> Outcome,
                decode: string -> Parsed) returns (r: Result<seq<Result<HostReport>>>)
    ensures Each(servers, JobOf).Err? ==> r == Err(Each(servers, JobOf).error)
    ensures Each(servers, JobOf).Ok? ==> r == Ok(Reports(Each(servers, JobOf).value, opts, cmd, run, decode))
  {
    var jobs: seq<Job> := [];
    var futs: seq<Result<HostReport>> := [];
    var i := 0;
    while i < |servers|
      invariant 0 <= i <= |servers|
      invariant Each(servers[..i], JobOf) == Ok(jobs)
      invariant |jobs| == i
      invariant futs == Reports(jobs, opts, cmd, run, decode)
    {
      var job := JobOf(servers[i]);
      if job.Err? {
        EachRaises(servers, JobOf, i);
        return Err(job.error);
      }
      EachSnoc(servers, JobOf, i);
      jobs := jobs + [job.value];
      futs := futs + [SshRun(i, job.value, opts, cmd, run, decode)];
      i := i + 1;
    }
    assert servers[..i] == servers;
    return Ok(futs);
  }

  /** The seven setdefault calls on each item of an ok report. */
  method NormalizeItems(rep: HostReport) returns (r: Result<seq<Json>>)
    ensures r == Each(rep.data, item => Normalize(item, rep.host))
  {
    var norm := item => Normalize(item, rep.host);
    var items: seq<Json> := [];
    var j := 0;
    while j < |rep.data|
      invariant 0 <= j <= |rep.data|
      invariant Each(rep.data[..j], norm) == Ok(items)
    {
      var item := Normalize(rep.data[j], rep.host);
      if item.Err? {
        EachRaises(rep.data, norm, j);
        return Err(item.error);
      }
      EachSnoc(rep.data, norm, j);
      items := items + [item.value];
      j := j + 1;
    }
    assert rep.data[..j] == rep.data;
    return Ok(items);
  }

  /** The completion loop: results and rows, in the order the futures finish. */
  method MergeLoop(futs: seq<Result<HostReport>>, order: seq<nat>) returns (r: Result<Snapshot>)
    requires forall k :: 0 <= k < |order| ==> order[k] < |futs|
    ensures r == Merge(futs, order)
  {
    var results: seq<HostReport> := [];
    var rows: seq<Json> := [];
    var k := 0;
    while k < |order|
      invariant 0 <= k <= |order|
      invariant Merge(futs, order[..k]) == Ok(Snapshot(results, rows))
    {
      var fr := futs[order[k]];
      if fr.Err? {
        MergeRaises(futs, order, k, fr.error);
        return Err(fr.error);
      }
      var rep := fr.value;
      var served := rep;
      if rep.ok {
        // the report's items are the dicts normalized here, so it is served with them normalized
        var items := NormalizeItems(rep);
        if items.Err? {
          MergeRaises(futs, order, k, items.error);
          return Err(items.error);
        }
        served := rep.(data := items.value);
        rows := rows + items.value;
      } else {
        assert rows + [] == rows;
      }
      assert Served(rep) == Ok(served);
      MergeSnoc(futs, order, k);
      results := results + [served];
      k := k + 1;
    }
    assert order[..k] == order;
    return Ok(Snapshot(results, rows));
  }

  /** api_metrics, loop by loop. */
  method GetMetrics(cfg: Config, query: Option<string>, run: (nat, seq<string>) -> Outcome,
                    decode: string -> Parsed, order: seq<nat>) returns (r: Result<Snapshot>)
    requires IsOrder(order, |cfg.servers.GetOr([])|)
    ensures r == ApiMetrics(cfg, query, run, decode, order)
  {
    var servers := cfg.servers.GetOr([]);
    var futs :- Submit(servers, cfg.sshOptions.GetOr([]), query.GetOr(DefaultCommand), run, decode);
    EachOutcome(servers, JobOf);
    r := MergeLoop(futs, order);
  }

  /**
   * When the request succeeds there is one report per configured server: the k-th
   * report is the served classification of the ssh run of the job of the server that
   * completed k-th, so no server's outcome affects another's report.
   */
  lemma ApiMetricsReports(cfg: Config, query: Option<string>, run: (nat, seq<string>) -> Outcome,
                          decode: string -> Parsed, order: seq<nat>)
    requires IsOrder(order, |cfg.servers.GetOr([])|)
    requires ApiMetrics(cfg, query, run, decode, order).Ok?
    ensures var servers := cfg.servers.GetOr([]);
      var jobs := Each(servers, JobOf);
      var snap := ApiMetrics(cfg, query, run, decode, order).value;
      && jobs.Ok? && |jobs.value| == |servers|
      && (forall i :: 0 <= i < |servers| ==> JobOf(servers[i]).Ok? && jobs.value[i] == JobOf(servers[i]).value)
      && |snap.servers| == |servers|
      && forall k :: 0 <= k < |order| ==>
           var rep := SshRun(order[k], jobs.value[order[k]], cfg.sshOptions.GetOr([]), query.GetOr(DefaultCommand), run, decode);
           rep.Ok? && Served(rep.value).Ok? && snap.servers[k] == Served(rep.value).value
  {
    var servers := cfg.servers.GetOr([]);
    EachOutcome(servers, JobOf);
    var jobs := Each(servers, JobOf).value;
    var opts := cfg.sshOptions.GetOr([]);
    var cmd := query.GetOr(DefaultCommand);
    var reports := Reports(jobs, opts, cmd, run, decode);
    assert ApiMetrics(cfg, query, run, decode, order) == Merge(reports, order);
    MergeServes(reports, order);
    var snap := Merge(reports, order).value;
    forall k | 0 <= k < |order|
      ensures SshRun(order[k], jobs[order[k]], opts, cmd, run, decode).Ok?
      ensures snap.servers[k] == Served(SshRun(order[k], jobs[order[k]], opts, cmd, run, decode).value).value
    {
      assert reports[order[k]] == SshRun(order[k], jobs[order[k]], opts, cmd, run, decode);
    }
  }

  /** The k-th report names the configured host of the server that completed k-th. */
  lemma ApiMetricsHosts(cfg: Config, query: Option<string>, run: (nat, seq<string>) -> Outcome,
                        decode: string -> Parsed, order: seq<nat>)
    requires IsOrder(order, |cfg.servers.GetOr([])|)
    requires ApiMetrics(cfg, query, run, decode, order).Ok?
    ensures var servers := cfg.servers.GetOr([]);
      var snap := ApiMetrics(cfg, query, run, decode, order).value;
      && (forall i :: 0 <= i < |servers| ==> i in order)
      && |snap.servers| == |order|
      && forall k :: 0 <= k < |order| ==> servers[order[k]].host.Some? && snap.servers[k].host == servers[order[k]].host.value
  {
    var servers := cfg.servers.GetOr([]);
    ApiMetricsReports(cfg, query, run, decode, order);
    OrderCovers(order, |servers|);
    var jobs := Each(servers, JobOf).value;
    var snap := ApiMetrics(cfg, query, run, decode, order).value;
    forall k | 0 <= k < |order|
      ensures servers[order[k]].host.Some? && snap.servers[k].host == servers[order[k]].host.value
    {
      var job := jobs[order[k]];
      JobOfSpec(servers[order[k]]);
      var rep := SshRun(order[k], job, cfg.sshOptions.GetOr([]), query.GetOr(DefaultCommand), run, decode);
      ClassifySpec(job.host, run(order[k], SshArgv(job.host, job.user, job.port, cfg.sshOptions.GetOr([]), query.GetOr(DefaultCommand))), decode);
      ServedSpec(rep.value);
    }
  }

  /** The numbers below n. */
  function Range(n: nat): (s: set<nat>)
    ensures forall x: nat :: x in s <==> x < n
    ensures |s| == n
  {
    if n == 0 then {} else Range(n - 1) + {n - 1}
  }

  /** A list of n distinct numbers below n names each of them: as_completed yields every future. */
  lemma OrderCovers(order: seq<nat>, n: nat)
    requires IsOrder(order, n)
    ensures forall i :: 0 <= i < n ==> i in order
  {
    var s := set k | 0 <= k < |order| :: order[k];
    SetSize(order);
    forall i | 0 <= i < n && i !in order
      ensures false
    {
      assert s <= Range(n) - {i};
      SubsetSize(s, Range(n) - {i});
    }
  }

  /** The distinct entries of a list make a set as large as the list. */
  lemma {:induction false} SetSize(order: seq<nat>)
    requires forall k, l :: 0 <= k < l < |order| ==> order[k] != order[l]
    ensures |set k | 0 <= k < |order| :: order[k]| == |order|
  {
    if |order| > 0 {
      var init := order[..|order| - 1];
      SetSize(init);
      var a := set k | 0 <= k < |init| :: init[k];
      var b := set k | 0 <= k < |order| :: order[k];
      assert b == a + {order[|order| - 1]} by {
        forall x | x in b ensures x in a + {order[|order| - 1]} {
          var k :| 0 <= k < |order| && order[k] == x;
          if k < |init| {
            assert init[k] == x;
          }
        }
      }
      assert order[|order| - 1] !in a;
    }
  }

  lemma SubsetSize(a: set<nat>, b: set<nat>)
    requires a <= b
    ensures |a| <= |b|
  {
    assert b == a + (b - a);
  }

  /** Every item an ok report is served with is an object with every defaulted field. */
  lemma ServedDefaults(rep: HostReport)
    requires Served(rep).Ok?
    ensures Served(rep).value.ok ==> forall x :: x in Served(rep).value.data ==> HasDefaults(x)
  {
    ServedSpec(rep);
    var s := Served(rep).value;
    forall i | 0 <= i < |s.data| && s.ok
      ensures HasDefaults(s.data[i])
    {
      NormalizeSpec(rep.data[i], rep.host);
    }
  }

  /**
   * When the request succeeds, rows are exactly the items of the ok reports, report by
   * report in completion order, and every row is an object with every defaulted field.
   */
  lemma ApiMetricsRows(cfg: Config, query: Option<string>, run: (nat, seq<string>) -> Outcome,
                       decode: string -> Parsed, order: seq<nat>)
    requires IsOrder(order, |cfg.servers.GetOr([])|)
    requires ApiMetrics(cfg, query, run, decode, order).Ok?
    ensures var snap := ApiMetrics(cfg, query, run, decode, order).value;
      && snap.rows == RowsOf(snap.servers)
      && forall x :: x in snap.rows ==> HasDefaults(x)
  {
    var servers := cfg.servers.GetOr([]);
    EachOutcome(servers, JobOf);
    var jobs := Each(servers, JobOf).value;
    var reports := Reports(jobs, cfg.sshOptions.GetOr([]), query.GetOr(DefaultCommand), run, decode);
    assert ApiMetrics(cfg, query, run, decode, order) == Merge(reports, order);
    MergeServes(reports, order);
    MergeRows(reports, order);
    var snap := Merge(reports, order).value;
    RowsOfMembers(snap.servers);
    forall x | x in snap.rows
      ensures HasDefaults(x)
    {
      var k :| 0 <= k < |snap.servers| && snap.servers[k].ok && x in snap.servers[k].data;
      ServedDefaults(reports[order[k]].value);
    }
  }
}
