/** The launcher side of the SCOOP integration (lib/vsc/mympirun/scoop/myscoop.py):
    how each worker's command line is rendered (MyHost), how the free-origin
    worker is carved out of its host's affinity accounting (MyScoopApp), and
    how the launcher fills in its defaults, resolves the executable and
    groups the host list (Myscoop). SCOOP's own Host and ScoopApp classes are
    not part of this model: what they return is taken as an input. */
module MyScoop {
  import opened Common
  import opened Strings

  /** The position of a worker on its host, as SCOOP hands it to `_addWorker_args`. */
  datatype WorkerInfo = WorkerInfo(totalWorkersHost: int, workerIdxHost: int)

  /** The affinity dictionary a worker carries: its worker info plus the
      affinity algorithm's name. */
  datatype AffinityInfo = AffinityInfo(algorithm: string, totalWorkersHost: int, workerIdxHost: int)

  /** One worker's launching-arguments record. `inherited` stands for the
      fields of SCOOP's own record that this code only passes through;
      `nice` and `size` are SCOOP fields it reads; the last four are the
      fields this extension adds. */
  datatype LaunchingArgs = LaunchingArgs(
    inherited: map<string, string>,
    nice: Option<int>,
    size: int,
    freeorigin: bool,
    processcontrol: Option<string>,
    affinity: Option<AffinityInfo>,
    variables: seq<string>)

  /** The keyword arguments `_addWorker_args` returns: SCOOP's own ones, plus the four extension keys. */
  datatype WorkerKwargs = WorkerKwargs(
    inherited: map<string, string>,
    freeorigin: bool,
    processcontrol: Option<string>,
    affinity: Option<AffinityInfo>,
    variables: seq<string>)

  /** The value of the `--affinity` flag, `ALGORITHM:TOTAL:INDEX`. */
  function FormatAffinity(a: AffinityInfo): (s: string)
    ensures s == Join([a.algorithm, IntToString(a.totalWorkersHost), IntToString(a.workerIdxHost)], ':')
  {
    var total, idx := IntToString(a.totalWorkersHost), IntToString(a.workerIdxHost);
    assert Join([total, idx], ':') == total + [':'] + idx by {
      assert [total, idx][1..] == [idx];
    }
    assert [a.algorithm, total, idx][1..] == [total, idx];
    a.algorithm + ":" + total + ":" + idx
  }

  /** The shell statement exporting one variable. */
  function ExportStatement(name: string, value: string): string
  {
    "export " + name + "='" + value + "'"
  }

  // ---------------------------------------------------------------------------
  // Environment exports

  /** The `(name, value)` pairs of the allow-listed variables that are set in
      the environment, in allow-list order. */
  function PresentVariables(variables: seq<string>, env: map<string, string>): (pairs: seq<(string, string)>)
    ensures |pairs| <= |variables|
    ensures forall k :: 0 <= k < |pairs| ==> pairs[k].0 in env && pairs[k].1 == env[pairs[k].0]
    ensures (set p | p in pairs :: p.0) == (set n | n in variables && n in env)
    decreases |variables|
  {
    if variables == [] then []
    else
      var init := variables[..|variables| - 1];
      var v := variables[|variables| - 1];
      var selected := PresentVariables(init, env);
      var tail := if v in env then [(v, env[v])] else [];
      assert variables == init + [v];
      assert (set n | n in variables && n in env)
          == (set n | n in init && n in env) + (if v in env then {v} else {});
      assert (set p | p in selected + tail :: p.0)
          == (set p | p in selected :: p.0) + (set p | p in tail :: p.0);
      selected + tail
  }

  /** Selecting the present variables of a concatenation selects from each
      part in turn: the selection keeps the allow-list order. */
  lemma {:induction false} PresentVariablesAppend(a: seq<string>, b: seq<string>, env: map<string, string>)
    ensures PresentVariables(a + b, env) == PresentVariables(a, env) + PresentVariables(b, env)
    decreases |b|
  {
    if b != [] {
      var b' := b[..|b| - 1];
      assert (a + b)[..|a + b| - 1] == a + b';
      assert (a + b)[|a + b| - 1] == b[|b| - 1];
      PresentVariablesAppend(a, b', env);
    } else {
      assert a + b == a;
    }
  }

  /** The export statements for the given pairs, each followed by `&&`. */
  function ExportLines(pairs: seq<(string, string)>): (cmd: seq<string>)
    ensures |cmd| == 2 * |pairs|
    ensures forall k :: 0 <= k < |pairs| ==>
      cmd[2 * k] == ExportStatement(pairs[k].0, pairs[k].1) && cmd[2 * k + 1] == "&&"
    decreases |pairs|
  {
    if pairs == [] then []
    else
      var init := ExportLines(pairs[..|pairs| - 1]);
      var last := pairs[|pairs| - 1];
      init + [ExportStatement(last.0, last.1), "&&"]
  }

  /** The modules loaded on each worker before it starts. */
  const LoadModules: seq<string> := ["SCOOP"]

  // ---------------------------------------------------------------------------
  // Worker options

  /** The process-control flags of a worker; present only when a
      process-control mode is set. */
  function ProcessControlOptions(w: LaunchingArgs): (o: seq<string>)
    ensures o == [] <==> w.processcontrol.None?
    ensures w.processcontrol.Some? ==>
      var niceEnd := if w.nice.Some? then 4 else 2;
      && |o| == niceEnd + (if w.affinity.Some? then 2 else 0)
      && o[..2] == ["--processcontrol", w.processcontrol.value]
      && (w.nice.Some? ==> o[2..4] == ["--nice", IntToString(w.nice.value)])
      && (w.affinity.Some? ==> o[niceEnd..] == ["--affinity", FormatAffinity(w.affinity.value)])
  {
    if w.processcontrol.None? then []
    else
      ["--processcontrol", w.processcontrol.value]
      + (if w.nice.Some? then ["--nice", IntToString(w.nice.value)] else [])
      + (if w.affinity.Some? then ["--affinity", FormatAffinity(w.affinity.value)] else [])
  }

  /** `--freeorigin` for a worker of size one that runs in free-origin mode. */
  function FreeOriginOption(w: LaunchingArgs): (o: seq<string>)
    ensures o != [] <==> w.size == 1 && w.freeorigin
    ensures o == [] || o == ["--freeorigin"]
  {
    if w.size == 1 && w.freeorigin then ["--freeorigin"] else []
  }

  /** Everything `_WorkerCommand_options` adds after SCOOP's own options. */
  function ExtraOptions(w: LaunchingArgs): (o: seq<string>)
    ensures ProcessControlOptions(w) <= o
    ensures |o| == |ProcessControlOptions(w)| + (if w.size == 1 && w.freeorigin then 1 else 0)
    ensures w.size == 1 && w.freeorigin ==> o[|o| - 1] == "--freeorigin"
  {
    ProcessControlOptions(w) + FreeOriginOption(w)
  }

  const NiceWithoutProcessControl := "nice is set, but no processcontrol"
  const AffinityWithoutProcessControl := "affinity is set, but no processcontrol"

  /** A copy of the worker record without its nice level. */
  function ClearNice(w: LaunchingArgs): (c: LaunchingArgs)
    ensures c.nice.None?
    ensures c.(nice := w.nice) == w
  {
    w.(nice := None)
  }

  /** `_WorkerCommand_bootstrap`: SCOOP's bootstrap command, rendered from a
      copy of the worker whose nice level is cleared. */
  function WorkerCommandBootstrap(worker: LaunchingArgs, baseBootstrap: LaunchingArgs -> seq<string>): (c: seq<string>)
    ensures c == baseBootstrap(worker.(nice := None))
    ensures worker.nice.None? ==> c == baseBootstrap(worker)
  {
    baseBootstrap(ClearNice(worker))
  }

  /** The bootstrap command does not depend on the worker's nice level:
      niceness reaches the worker only through the `--nice` option. */
  lemma BootstrapIgnoresNice(w1: LaunchingArgs, w2: LaunchingArgs, baseBootstrap: LaunchingArgs -> seq<string>)
    requires w1.(nice := w2.nice) == w2
    ensures WorkerCommandBootstrap(w1, baseBootstrap) == WorkerCommandBootstrap(w2, baseBootstrap)
  {
    assert ClearNice(w1) == ClearNice(w2);
  }

  /** A SCOOP launch host; `workersArguments` holds the launching arguments
      recorded so far for the workers started on it. */
  class MyHost {
    var workersArguments: seq<LaunchingArgs>

    constructor (recorded: seq<LaunchingArgs>)
      ensures workersArguments == recorded
    {
      workersArguments := recorded;
    }

    /** `_WorkerCommand_environment`: the exports of the worker's variables,
        then SCOOP's environment command unchanged. */
    method WorkerCommandEnvironment(worker: LaunchingArgs, base: seq<string>, env: map<string, string>)
      returns (c: seq<string>)
      ensures c == ExportLines(PresentVariables(worker.variables, env)) + base
      ensures c[|c| - |base|..] == base
    {
      var setVariables := WorkerCommandEnvironmentSetVariables(worker.variables, env);
      c := setVariables + base;
    }

    /** `_WorkerCommand_environment_set_variables`: `export NAME='VALUE'` and
        `&&` for each allow-listed variable set in the environment. */
    method WorkerCommandEnvironmentSetVariables(variables: seq<string>, env: map<string, string>)
      returns (cmd: seq<string>)
      ensures cmd == ExportLines(PresentVariables(variables, env))
    {
      var pairs := PresentVariables(variables, env);
      cmd := [];
      var i := 0;
      while i < |pairs|
        invariant 0 <= i <= |pairs|
        invariant cmd == ExportLines(pairs[..i])
      {
        assert pairs[..i + 1][..i] == pairs[..i];
        cmd := cmd + [ExportStatement(pairs[i].0, pairs[i].1), "&&"];
        i := i + 1;
      }
      assert pairs[..i] == pairs;
    }

    /** `_WorkerCommand_environment_load_modules`: `module load SCOOP &&`. */
    method WorkerCommandEnvironmentLoadModules() returns (modLoad: seq<string>)
      ensures modLoad == ["module", "load"] + LoadModules + ["&&"]
    {
      modLoad := ["module", "load"];
      for i := 0 to |LoadModules|
        invariant modLoad == ["module", "load"] + LoadModules[..i]
      {
        modLoad := modLoad + [LoadModules[i]];
      }
      modLoad := modLoad + ["&&"];
    }

    /** `_WorkerCommand_options`: SCOOP's options `base`, then the
        process-control flags and `--freeorigin`; the errors are the
        messages logged for a nice level or affinity given without a
        process-control mode. */
    method WorkerCommandOptions(worker: LaunchingArgs, base: seq<string>)
      returns (c: seq<string>, errors: seq<string>)
      ensures c == base + ExtraOptions(worker)
      ensures worker.processcontrol.None? ==> c == base + FreeOriginOption(worker)
      ensures errors == if worker.processcontrol.Some? then [] else
        (if worker.nice.Some? then [NiceWithoutProcessControl] else [])
        + (if worker.affinity.Some? then [AffinityWithoutProcessControl] else [])
    {
      c := base;
      errors := [];
      if worker.processcontrol.Some? {
        c := c + ["--processcontrol", worker.processcontrol.value];
        if worker.nice.Some? {
          c := c + ["--nice", IntToString(worker.nice.value)];
        }
        assert c == base + (["--processcontrol", worker.processcontrol.value]
          + (if worker.nice.Some? then ["--nice", IntToString(worker.nice.value)] else []));
        if worker.affinity.Some? {
          c := c + ["--affinity", FormatAffinity(worker.affinity.value)];
        }
        assert c == base + ProcessControlOptions(worker);
      } else {
        if worker.nice.Some? {
          errors := errors + [NiceWithoutProcessControl];
        }
        if worker.affinity.Some? {
          errors := errors + [AffinityWithoutProcessControl];
        }
      }
      if worker.size == 1 && worker.freeorigin {
        c := c + ["--freeorigin"];
      }
    }
  }

  // ---------------------------------------------------------------------------
  // Free-origin carve-out

  /** `after` is the sibling record `before` once the origin has been carved
      out of its host: one worker fewer shares the host's cores, the worker
      keeps its index, free-origin mode is on, nothing else changes. */
  predicate CarvedOut(before: LaunchingArgs, after: LaunchingArgs)
  {
    && before.affinity.Some? && after.affinity.Some?
    && after.affinity.value.totalWorkersHost == before.affinity.value.totalWorkersHost - 1
    && after.affinity.value.workerIdxHost == before.affinity.value.workerIdxHost
    && after.affinity.value.algorithm == before.affinity.value.algorithm
    && after.freeorigin
    && after.(affinity := before.affinity, freeorigin := before.freeorigin) == before
  }

  /** The loop of `_addWorker_args` over the records already on the origin's
      host. None when a record has no affinity dictionary (Python raises on
      `None.copy()`, before anything is replaced). */
  method CarveOutOrigin(recorded: seq<LaunchingArgs>) returns (newargs: Option<seq<LaunchingArgs>>)
    ensures newargs.None? <==> exists k :: 0 <= k < |recorded| && recorded[k].affinity.None?
    ensures newargs.Some? ==>
      |newargs.value| == |recorded| &&
      forall k :: 0 <= k < |recorded| ==> CarvedOut(recorded[k], newargs.value[k])
  {
    var acc: seq<LaunchingArgs> := [];
    var i := 0;
    while i < |recorded|
      invariant 0 <= i <= |recorded|
      invariant |acc| == i
      invariant forall k :: 0 <= k < i ==> CarvedOut(recorded[k], acc[k])
    {
      var launchingArgs := recorded[i];
      if launchingArgs.affinity.None? {
        return None;
      }
      var affinityDict := launchingArgs.affinity.value;
      affinityDict := affinityDict.(totalWorkersHost := affinityDict.totalWorkersHost - 1);
      acc := acc + [launchingArgs.(affinity := Some(affinityDict), freeorigin := true)];
      i := i + 1;
    }
    return Some(acc);
  }

  /** What can go wrong in `_addWorker_args`. */
  datatype AddWorkerError =
    | NoHostConnection         // `hostsConn[-1]` on an empty list
    | SiblingWithoutAffinity   // a recorded sibling has no affinity dictionary

  /** SCOOP's launcher application, with the four options this extension adds. */
  class MyScoopApp {
    const variablesToPass: seq<string>
    const affinity: string          // the affinity algorithm's name
    const processcontrol: Option<string>
    const freeorigin: bool
    var workersLeft: int
    var hostsConn: seq<MyHost>

    constructor (variablesToPass: seq<string>, affinity: string, processcontrol: Option<string>,
                 freeorigin: bool, workersLeft: int, hostsConn: seq<MyHost>)
      ensures this.variablesToPass == variablesToPass && this.affinity == affinity
      ensures this.processcontrol == processcontrol && this.freeorigin == freeorigin
      ensures this.workersLeft == workersLeft && this.hostsConn == hostsConn
    {
      this.variablesToPass := variablesToPass;
      this.affinity := affinity;
      this.processcontrol := processcontrol;
      this.freeorigin := freeorigin;
      this.workersLeft := workersLeft;
      this.hostsConn := hostsConn;
    }

    /** The host connection the worker being added belongs to. */
    function LastHost(): set<MyHost>
      reads this
    {
      if |hostsConn| > 0 then {hostsConn[|hostsConn| - 1]} else {}
    }

    /** `_addWorker_args`: SCOOP's arguments `args` and keyword arguments
        `inherited`, extended for one worker. The last worker added in
        free-origin mode is the origin: it gets no affinity, and every
        record already on its host is carved out (see CarvedOut). */
    method AddWorkerArgs(workerinfo: WorkerInfo, args: seq<string>, inherited: map<string, string>)
      returns (r: Result<(seq<string>, WorkerKwargs), AddWorkerError>)
      modifies LastHost()
      ensures r.Ok? ==> r.value.0 == args && r.value.1.inherited == inherited
      ensures r.Ok? ==> r.value.1.processcontrol == processcontrol && r.value.1.variables == variablesToPass
      ensures !(freeorigin && workersLeft == 1) ==>
        && r.Ok? && !r.value.1.freeorigin
        && r.value.1.affinity == Some(AffinityInfo(affinity, workerinfo.totalWorkersHost, workerinfo.workerIdxHost))
        && forall h :: h in LastHost() ==> h.workersArguments == old(h.workersArguments)
      ensures freeorigin && workersLeft == 1 && |hostsConn| == 0 ==> r == Err(NoHostConnection)
      ensures freeorigin && workersLeft == 1 && |hostsConn| > 0 ==>
        var host := hostsConn[|hostsConn| - 1];
        var before := old(host.workersArguments);
        && (r.Err? <==> exists k :: 0 <= k < |before| && before[k].affinity.None?)
        && (r.Err? ==> r.error == SiblingWithoutAffinity && host.workersArguments == before)
        && (r.Ok? ==> r.value.1.freeorigin && r.value.1.affinity.None?)
        && (r.Ok? ==> |host.workersArguments| == |before|)
        && (r.Ok? ==> forall k :: 0 <= k < |before| ==> CarvedOut(before[k], host.workersArguments[k]))
    {
      var affinityDict := Some(AffinityInfo(affinity, workerinfo.totalWorkersHost, workerinfo.workerIdxHost));
      var kwFreeorigin := false;
      if freeorigin {
        if workersLeft == 1 {
          kwFreeorigin := true;
          affinityDict := None;
          if |hostsConn| == 0 {
            return Err(NoHostConnection);
          }
          var host := hostsConn[|hostsConn| - 1];
          var newargs := CarveOutOrigin(host.workersArguments);
          if newargs.None? {
            return Err(SiblingWithoutAffinity);
          }
          host.workersArguments := newargs.value;
        }
      }
      r := Ok((args, WorkerKwargs(inherited, kwFreeorigin, processcontrol, affinityDict, variablesToPass)));
    }
  }

  // ---------------------------------------------------------------------------
  // Host grouping

  /** A run of consecutive equal entries of the host list. */
  datatype HostGroup = HostGroup(name: string, count: nat)

  function Repeat(name: string, count: nat): seq<string>
  {
    if count == 0 then [] else [name] + Repeat(name, count - 1)
  }

  /** The host list a grouping stands for. */
  function Expand(groups: seq<HostGroup>): seq<string>
  {
    if groups == [] then [] else Repeat(groups[0].name, groups[0].count) + Expand(groups[1..])
  }

  function TotalCount(groups: seq<HostGroup>): nat
  {
    if groups == [] then 0 else groups[0].count + TotalCount(groups[1..])
  }

  /** Every group is non-empty and no two adjacent groups share a host. */
  predicate WellGrouped(groups: seq<HostGroup>)
  {
    && (forall k :: 0 <= k < |groups| ==> groups[k].count >= 1)
    && (forall k :: 0 <= k < |groups| - 1 ==> groups[k].name != groups[k + 1].name)
  }

  /** `[(nodename, len(list(group))) for nodename, group in itertools.groupby(hosts)]`. */
  function GroupHosts(hosts: seq<string>): (groups: seq<HostGroup>)
    ensures groups == [] <==> hosts == []
    ensures hosts != [] ==> groups[0].name == hosts[0]
    decreases |hosts|
  {
    if hosts == [] then []
    else
      var rest := GroupHosts(hosts[1..]);
      if rest != [] && rest[0].name == hosts[0] then [HostGroup(hosts[0], rest[0].count + 1)] + rest[1..]
      else [HostGroup(hosts[0], 1)] + rest
  }

  /** Expanding the groups gives the host list back. */
  lemma {:induction false} GroupHostsExpands(hosts: seq<string>)
    ensures Expand(GroupHosts(hosts)) == hosts
    decreases |hosts|
  {
    if hosts != [] {
      var rest := GroupHosts(hosts[1..]);
      GroupHostsExpands(hosts[1..]);
      if rest != [] && rest[0].name == hosts[0] {
        calc {
          Expand(GroupHosts(hosts));
          Repeat(hosts[0], rest[0].count + 1) + Expand(rest[1..]);
          [hosts[0]] + (Repeat(hosts[0], rest[0].count) + Expand(rest[1..]));
          [hosts[0]] + Expand(rest);
          hosts;
        }
      } else {
        assert Repeat(hosts[0], 1) == [hosts[0]];
        assert ([HostGroup(hosts[0], 1)] + rest)[1..] == rest;
      }
    }
  }

  /** The groups are non-empty and adjacent groups name different hosts. */
  lemma {:induction false} GroupHostsWellGrouped(hosts: seq<string>)
    ensures WellGrouped(GroupHosts(hosts))
    decreases |hosts|
  {
    if hosts != [] {
      GroupHostsWellGrouped(hosts[1..]);
    }
  }

  lemma {:induction false} ExpandLength(groups: seq<HostGroup>)
    ensures |Expand(groups)| == TotalCount(groups)
    decreases |groups|
  {
    if groups != [] {
      RepeatLength(groups[0].name, groups[0].count);
      ExpandLength(groups[1..]);
    }
  }

  lemma {:induction false} RepeatLength(name: string, count: nat)
    ensures |Repeat(name, count)| == count
    decreases count
  {
    if count > 0 {
      RepeatLength(name, count - 1);
    }
  }

  /** The counts add up to the length of the host list. */
  lemma GroupHostsTotal(hosts: seq<string>)
    ensures TotalCount(GroupHosts(hosts)) == |hosts|
  {
    GroupHostsExpands(hosts);
    ExpandLength(GroupHosts(hosts));
  }

  /** The grouping is the only well-formed one that expands to the host list. */
  lemma {:induction false} GroupHostsUnique(hosts: seq<string>, groups: seq<HostGroup>)
    requires WellGrouped(groups) && Expand(groups) == hosts
    ensures groups == GroupHosts(hosts)
    decreases |hosts|
  {
    if groups == [] {
      assert hosts == [];
    } else {
      var g := groups[0];
      assert Repeat(g.name, g.count) == [g.name] + Repeat(g.name, g.count - 1);
      assert hosts == [g.name] + (Repeat(g.name, g.count - 1) + Expand(groups[1..]));
      assert hosts[1..] == Repeat(g.name, g.count - 1) + Expand(groups[1..]);
      if g.count == 1 {
        assert hosts[1..] == Expand(groups[1..]);
        assert WellGrouped(groups[1..]) by {
          forall k | 0 <= k < |groups[1..]| - 1
            ensures groups[1..][k].name != groups[1..][k + 1].name
          {
            assert groups[1..][k] == groups[k + 1] && groups[1..][k + 1] == groups[k + 2];
          }
        }
        GroupHostsUnique(hosts[1..], groups[1..]);
        if |groups| > 1 {
          assert groups[1].name != g.name;
        }
        assert groups == [HostGroup(hosts[0], 1)] + groups[1..];
      } else {
        var shorter := [HostGroup(g.name, g.count - 1)] + groups[1..];
        assert shorter[1..] == groups[1..];
        assert Expand(shorter) == hosts[1..];
        assert WellGrouped(shorter) by {
          forall k | 0 <= k < |shorter| - 1
            ensures shorter[k].name != shorter[k + 1].name
          {
            assert shorter[k + 1] == groups[k + 1];
            if k > 0 {
              assert shorter[k] == groups[k];
            }
          }
        }
        GroupHostsUnique(hosts[1..], shorter);
        assert groups == [HostGroup(hosts[0], shorter[0].count + 1)] + shorter[1..];
      }
    }
  }

  /** Duplicating the first host entry adds one slot to the first group and
      leaves every other group as it was. */
  lemma DuplicateFirstHost(hosts: seq<string>)
    requires hosts != []
    ensures var groups := GroupHosts(hosts);
      GroupHosts([hosts[0]] + hosts) == [HostGroup(hosts[0], groups[0].count + 1)] + groups[1..]
  {
    assert ([hosts[0]] + hosts)[1..] == hosts;
  }

  // ---------------------------------------------------------------------------
  // The launcher

  /** The local interface MPI start-up resolves: its address and its name. */
  datatype Interface = Interface(address: string, name: string)

  /** Exceptions the launcher raises while resolving the executable or the hosts. */
  datatype LaunchError =
    | ModuleNotLocated(moduleName: string)   // neither name imports
    | ModuleFileUnknown(moduleName: string)  // imports, but has no `__file__`
    | NoHosts                            // free-origin mode with an empty host list

  const WorkerModuleDefaultNs := "vsc.mympirun.scoop.worker"
  const WorkerModuleDefault := "simple_shell"

  /** `_get_module`: None when the import fails, the module's file without
      its extension when it imports, an error when it imports without a
      file. `modules` maps each importable module name to its `__file__`. */
  function GetModule(modules: map<string, Option<string>>, name: string): (r: Result<Option<string>, LaunchError>)
    ensures r == Ok(None) <==> name !in modules
    ensures r.Err? <==> name in modules && modules[name].None?
    ensures r.Err? ==> r.error == ModuleFileUnknown(name)
    ensures r.Ok? && r.value.Some? ==>
      name in modules && r.value.value == StripLastExtension(modules[name].value) && r.value.value <= modules[name].value
  {
    if name !in modules then Ok(None)
    else if modules[name].None? then Err(ModuleFileUnknown(name))
    else Ok(Some(StripLastExtension(modules[name].value)))
  }

  /** The worker module's file, without extension: the module name is tried
      first, then the same name inside the default namespace. */
  function LocateModuleFile(modules: map<string, Option<string>>, moduleName: string): (r: Result<string, LaunchError>)
    ensures moduleName in modules && modules[moduleName].Some? ==> r == Ok(StripLastExtension(modules[moduleName].value))
    ensures moduleName in modules && modules[moduleName].None? ==> r == Err(ModuleFileUnknown(moduleName))
    ensures moduleName !in modules ==>
      var qualified := WorkerModuleDefaultNs + "." + moduleName;
      && (qualified in modules && modules[qualified].Some? ==> r == Ok(StripLastExtension(modules[qualified].value)))
      && (qualified in modules && modules[qualified].None? ==> r == Err(ModuleFileUnknown(qualified)))
      && (qualified !in modules ==> r == Err(ModuleNotLocated(moduleName)))
  {
    match GetModule(modules, moduleName)
    case Err(e) => Err(e)
    case Ok(Some(fn)) => Ok(fn)
    case Ok(None) =>
      match GetModule(modules, WorkerModuleDefaultNs + "." + moduleName)
      case Err(e) => Err(e)
      case Ok(Some(fn)) => Ok(fn)
      case Ok(None) => Err(ModuleNotLocated(moduleName))
  }

  /** The SCOOP flavour of the MPI launcher. The MPI-derived values it reads
      (`mpitotalppn`, `nruniquenodes`, `mpinodes`) are fixed inputs. */
  class Myscoop {
    var scoopSize: Option<int>
    var scoopHosts: Option<seq<string>>
    var scoopBroker: Option<string>
    var scoopInfobroker: Option<string>
    var scoopExecutable: string
    var scoopArgs: seq<string>
    var mpdbootLocalhostInterface: Option<Interface>
    const scoopModule: string
    const scoopFreeorigin: bool
    const mpitotalppn: int
    const nruniquenodes: int
    const mpinodes: seq<string>

    constructor (size: Option<int>, hosts: Option<seq<string>>, broker: Option<string>, infobroker: Option<string>,
                 executable: string, args: seq<string>, moduleName: string, freeorigin: bool,
                 mpitotalppn: int, nruniquenodes: int, mpinodes: seq<string>)
      ensures scoopSize == size && scoopHosts == hosts && scoopBroker == broker && scoopInfobroker == infobroker
      ensures scoopExecutable == executable && scoopArgs == args && scoopModule == moduleName
      ensures scoopFreeorigin == freeorigin && mpdbootLocalhostInterface.None?
      ensures this.mpitotalppn == mpitotalppn && this.nruniquenodes == nruniquenodes && this.mpinodes == mpinodes
    {
      scoopSize, scoopHosts, scoopBroker, scoopInfobroker := size, hosts, broker, infobroker;
      scoopExecutable, scoopArgs, scoopModule, scoopFreeorigin := executable, args, moduleName, freeorigin;
      mpdbootLocalhostInterface := None;
      this.mpitotalppn, this.nruniquenodes, this.mpinodes := mpitotalppn, nruniquenodes, mpinodes;
    }

    /** `scoop_prepare`: fills in the broker, the size, the hosts and the
        info broker when they are unset, and leaves given values alone.
        `resolved` is what resolving the local interface would find. */
    method ScoopPrepare(resolved: Interface)
      modifies this`scoopBroker, this`mpdbootLocalhostInterface, this`scoopSize, this`scoopHosts, this`scoopInfobroker
      ensures old(scoopBroker).Some? ==>
        scoopBroker == old(scoopBroker) && mpdbootLocalhostInterface == old(mpdbootLocalhostInterface)
      ensures old(scoopBroker).None? ==>
        && mpdbootLocalhostInterface == Some(if old(mpdbootLocalhostInterface).Some? then old(mpdbootLocalhostInterface).value else resolved)
        && scoopBroker == Some(mpdbootLocalhostInterface.value.address)
      ensures scoopSize == if old(scoopSize).None? then Some(mpitotalppn * nruniquenodes) else old(scoopSize)
      ensures scoopHosts == if old(scoopHosts).None? then Some(mpinodes) else old(scoopHosts)
      ensures scoopInfobroker == if old(scoopInfobroker).None? then scoopBroker else old(scoopInfobroker)
      ensures scoopBroker.Some? && scoopInfobroker.Some? && scoopSize.Some? && scoopHosts.Some?
    {
      if scoopBroker.None? {
        if mpdbootLocalhostInterface.None? {
          mpdbootLocalhostInterface := Some(resolved);
        }
        scoopBroker := Some(mpdbootLocalhostInterface.value.address);
      }
      if scoopSize.None? {
        scoopSize := Some(mpitotalppn * nruniquenodes);
      }
      if scoopHosts.None? {
        scoopHosts := Some(mpinodes);
      }
      if scoopInfobroker.None? {
        scoopInfobroker := scoopBroker;
      }
    }

    /** `scoop_make_executable`: a Python executable is run as it is;
        anything else becomes the first argument of the worker module,
        which is located by name. `modules` maps each importable module
        name to its `__file__`. */
    method ScoopMakeExecutable(modules: map<string, Option<string>>) returns (raised: Option<LaunchError>)
      modifies this`scoopExecutable, this`scoopArgs
      ensures EndsWith(old(scoopExecutable), ".py") ==>
        raised.None? && scoopExecutable == old(scoopExecutable) && scoopArgs == old(scoopArgs)
      ensures !EndsWith(old(scoopExecutable), ".py") ==>
        && scoopArgs == [old(scoopExecutable)] + old(scoopArgs)
        && match LocateModuleFile(modules, scoopModule)
           case Ok(fn) => raised.None? && scoopExecutable == fn + ".py"
           case Err(e) => raised == Some(e) && scoopExecutable == old(scoopExecutable)
    {
      if !EndsWith(scoopExecutable, ".py") {
        scoopArgs := [scoopExecutable] + scoopArgs;
        var moduleFn := GetModule(modules, scoopModule);
        if moduleFn.Err? {
          return Some(moduleFn.error);
        }
        if moduleFn.value.None? {
          moduleFn := GetModule(modules, WorkerModuleDefaultNs + "." + scoopModule);
          if moduleFn.Err? {
            return Some(moduleFn.error);
          }
          if moduleFn.value.None? {
            return Some(ModuleNotLocated(scoopModule));
          }
        }
        scoopExecutable := moduleFn.value.value + ".py";
      }
      return None;
    }

    /** The placement part of `scoop_run`: in free-origin mode the first host
        entry is duplicated and the size grows by one; the result is the
        grouped host list and the size handed to SCOOP. */
    method ScoopRun() returns (r: Result<(seq<HostGroup>, int), LaunchError>)
      requires scoopHosts.Some? && scoopSize.Some?
      modifies this`scoopHosts, this`scoopSize
      ensures !scoopFreeorigin ==>
        && scoopHosts == old(scoopHosts) && scoopSize == old(scoopSize)
        && r == Ok((GroupHosts(scoopHosts.value), scoopSize.value))
      ensures scoopFreeorigin && old(scoopHosts).value == [] ==>
        r == Err(NoHosts) && scoopHosts == old(scoopHosts) && scoopSize == old(scoopSize)
      ensures scoopFreeorigin && old(scoopHosts).value != [] ==>
        && scoopHosts == Some([old(scoopHosts).value[0]] + old(scoopHosts).value)
        && scoopSize == Some(old(scoopSize).value + 1)
        && r == Ok((GroupHosts(scoopHosts.value), scoopSize.value))
    {
      if scoopFreeorigin {
        var hosts := scoopHosts.value;
        if hosts == [] {
          return Err(NoHosts);
        }
        scoopHosts := Some([hosts[0]] + hosts);
        scoopSize := Some(scoopSize.value + 1);
      }
      r := Ok((GroupHosts(scoopHosts.value), scoopSize.value));
    }
  }
}
