/** The worker start-up script `python -m vsc.mympirun.scoop.bootstrap`: it
    parses the worker's options, applies the nice level, CPU affinity and start
    directory, publishes the SCOOP constants, makes the user's script importable,
    copies the script's public names into its own globals and hands the script
    to SCOOP's `futures._startup`. The process-wide state it changes (`sys.path`,
    `sys.argv`, the working directory, the module globals, the standard streams,
    the log) is the state of a `WorkerProcess`; the operating system's answers
    are an `Os` value. */
module BootstrapMain {
  import opened Common
  import opened Strings

  /** The parsed command line of the start-up script. `executable` is the one
      element of the `nargs=1` positional. */
  datatype MainArgs = MainArgs(
    origin: bool,
    workerName: string,
    brokerName: string,
    brokerAddress: string,
    metaAddress: string,
    size: int,
    debug: bool,
    profile: bool,
    executable: string,
    args: seq<string>,
    echoGroup: bool,
    startfrom: Option<string>,
    nice: Option<int>,
    affinity: Option<string>)

  /** The destinations `make_parser` declares, one per `add_argument`. */
  datatype MainOption =
    | Origin | WorkerName | BrokerName | BrokerAddress | MetaAddress | Size | Debug | Profile
    | Executable | Args | EchoGroup | Startfrom | Nice | Affinity

  /** The order in which `make_parser` declares its options. */
  function MainOptionOrder(): seq<MainOption>
  {
    [ Origin, WorkerName, BrokerName, BrokerAddress, MetaAddress, Size, Debug, Profile,
      Executable, Args, EchoGroup, Startfrom, Nice, Affinity ]
  }

  /** The default each `add_argument` call of `make_parser` gives. */
  function MainDefault(o: MainOption): DefaultValue
  {
    match o
    case Origin => BoolDefault(false)
    case WorkerName => StrDefault("worker0")
    case BrokerName => StrDefault("broker")
    case BrokerAddress => StrDefault("")
    case MetaAddress => StrDefault("")
    case Size => IntDefault(1)
    case Debug => BoolDefault(false)
    case Profile => BoolDefault(false)
    case Executable => NoDefault
    case Args => ListDefault([])
    case EchoGroup => BoolDefault(false)
    case Startfrom => NoneDefault
    case Nice => IntDefault(0)
    case Affinity => NoneDefault
  }

  /** `make_parser`: its option declarations. */
  function MainArgSpecs(): seq<ArgSpec<MainOption>>
  {
    SpecsOf(MainOptionOrder(), MainDefault)
  }

  /** Every option is declared, with the default `MainDefault` gives it:
      worker "worker0", broker "broker", a pool of one, nice level 0 (so
      `setpriority` is always called), no affinity and no start directory;
      the executable has no default and is required. */
  lemma MainParserDefaults()
    ensures forall o: MainOption :: DefaultOf(MainArgSpecs(), o) == Some(MainDefault(o))
  {
    forall o: MainOption
      ensures DefaultOf(MainArgSpecs(), o) == Some(MainDefault(o))
    {
      var order := MainOptionOrder();
      var i := match o
        case Origin => 0 case WorkerName => 1 case BrokerName => 2 case BrokerAddress => 3
        case MetaAddress => 4 case Size => 5 case Debug => 6 case Profile => 7
        case Executable => 8 case Args => 9 case EchoGroup => 10 case Startfrom => 11
        case Nice => 12 case Affinity => 13;
      assert order[i] == o;
      DefaultOfTable(order, MainDefault, o);
    }
  }

  /** The same defaults written out: every option but the executable has
      one, and the executable must be given. */
  lemma MainParserDefaultValues(o: MainOption)
    ensures DefaultOf(MainArgSpecs(), o) == Some(
      match o
      case Origin | Debug | Profile | EchoGroup => BoolDefault(false)
      case WorkerName => StrDefault("worker0")
      case BrokerName => StrDefault("broker")
      case BrokerAddress | MetaAddress => StrDefault("")
      case Size => IntDefault(1)
      case Nice => IntDefault(0)
      case Executable => NoDefault
      case Args => ListDefault([])
      case Startfrom | Affinity => NoneDefault)
  {
    MainParserDefaults();
  }

  // ---------------------------------------------------------------------
  // POSIX path names (`os.path.basename`, `os.path.dirname`, `os.path.join`)
  // ---------------------------------------------------------------------

  /** Position just after the last '/', or 0. */
  function SplitPoint(p: string): (i: nat)
    ensures i <= |p| && '/' !in p[i..]
    ensures i > 0 ==> p[i - 1] == '/'
  {
    match LastIndexOf(p, '/')
    case None => 0
    case Some(j) => j + 1
  }

  /** `os.path.basename(p)`: everything after the last '/'. */
  function BaseName(p: string): (r: string)
    ensures '/' !in r && EndsWith(p, r)
    ensures r == p || p[|p| - |r| - 1] == '/'
  {
    p[SplitPoint(p)..]
  }

  predicate AllSlashes(s: string)
  {
    forall k :: 0 <= k < |s| ==> s[k] == '/'
  }

  /** `s.rstrip('/')`. */
  function StripTrailingSlashes(s: string): (r: string)
    ensures r <= s && AllSlashes(s[|r|..])
    ensures r == [] || r[|r| - 1] != '/'
    decreases |s|
  {
    if s != [] && s[|s| - 1] == '/' then
      var r := StripTrailingSlashes(s[..|s| - 1]);
      assert s[|r|..] == s[..|s| - 1][|r|..] + ['/'];
      r
    else s
  }

  /** `os.path.dirname(p)`: everything up to the last '/', with trailing
      slashes removed unless the head consists of slashes only. */
  function DirName(p: string): (r: string)
    ensures r <= p && |r| <= SplitPoint(p)
    ensures '/' !in p ==> r == []
    ensures '/' in p ==> r != [] && AllSlashes(p[|r|..SplitPoint(p)])
    ensures !AllSlashes(r) ==> r[|r| - 1] != '/'
    ensures AllSlashes(r) ==> r == p[..SplitPoint(p)]
  {
    var k := SplitPoint(p);
    var head := p[..k];
    assert '/' in p ==> k > 0 by {
      if k == 0 { assert p[k..] == p; }
    }
    if head != [] && !AllSlashes(head) then
      var r := StripTrailingSlashes(head);
      assert p[|r|..k] == head[|r|..];
      assert !AllSlashes(r) by {
        if AllSlashes(r) {
          forall j | 0 <= j < |head|
            ensures head[j] == '/'
          {
            if j >= |r| { assert head[j] == head[|r|..][j - |r|]; }
          }
        }
      }
      r
    else head
  }

  /** `os.path.join(a, b)`: an absolute `b` replaces `a`; otherwise a '/' is
      inserted unless `a` is empty or already ends with one. */
  function PathJoin(a: string, b: string): (r: string)
    ensures |b| > 0 && b[0] == '/' ==> r == b
    ensures !(|b| > 0 && b[0] == '/') ==> a <= r && EndsWith(r, b)
  {
    if |b| > 0 && b[0] == '/' then b
    else if a == [] || a[|a| - 1] == '/' then a + b
    else a + "/" + b
  }

  /** The split point is the only position with no '/' after it and a '/'
      (or the start of the path) just before it. */
  lemma SplitPointAt(p: string, i: nat)
    requires i <= |p| && '/' !in p[i..]
    requires i > 0 ==> p[i - 1] == '/'
    ensures SplitPoint(p) == i
  {
    var k := SplitPoint(p);
    assert forall j :: i <= j < |p| ==> p[j] != '/' by {
      forall j | i <= j < |p|
        ensures p[j] != '/'
      {
        assert p[j] == p[i..][j - i];
      }
    }
    assert forall j :: k <= j < |p| ==> p[j] != '/' by {
      forall j | k <= j < |p|
        ensures p[j] != '/'
      {
        assert p[j] == p[k..][j - k];
      }
    }
  }

  /** A path with no '/' has an empty directory part and is its own base name. */
  lemma PathWithoutDirectory(p: string)
    requires '/' !in p
    ensures DirName(p) == "" && BaseName(p) == p
  {
    assert p[0..] == p;
    SplitPointAt(p, 0);
  }

  /** `dirname` and `basename` take `d + "/" + n` apart again. */
  lemma DirNameBaseName(d: string, n: string)
    requires '/' !in n
    requires d != [] && d[|d| - 1] != '/'
    ensures DirName(d + "/" + n) == d && BaseName(d + "/" + n) == n
  {
    var p := d + "/" + n;
    assert p[|d|] == '/' && p[|d| + 1..] == n;
    SplitPointAt(p, |d| + 1);
    var head := d + "/";
    assert p[..|d| + 1] == head;
    assert head[|d| - 1] == d[|d| - 1];
    assert head[..|head| - 1] == d;
  }

  /** A file directly under the root has the root as its directory. */
  lemma DirNameRoot(n: string)
    requires '/' !in n
    ensures DirName("/" + n) == "/" && BaseName("/" + n) == n
  {
    var p := "/" + n;
    assert p[1..] == n;
    SplitPointAt(p, 1);
    assert p[..1] == "/";
  }

  /** Joining onto a non-root directory without a trailing slash puts one '/'
      in between, also for an empty second part (`join("/w", "") == "/w/"`). */
  lemma PathJoinRelative(a: string, b: string)
    requires a != [] && a[|a| - 1] != '/'
    requires !(|b| > 0 && b[0] == '/')
    ensures PathJoin(a, b) == a + "/" + b
  {
  }

  // ---------------------------------------------------------------------
  // The user's module and the operating system
  // ---------------------------------------------------------------------

  /** What importing the user's script yields: its `__all__` when it has one,
      the names `dir()` lists, and the values of its attributes. */
  datatype UserModule = UserModule(
    exportList: Option<seq<string>>,
    dirNames: seq<string>,
    attributes: map<string, string>)

  /** The answers of the operating system and the import machinery. */
  datatype Os = Os(
    setpriorityFails: bool,
    setaffinityFails: bool,
    chdirFails: bool,
    processGroup: int,
    modules: map<string, UserModule>)

  /** The constants published in the `scoop` module. */
  datatype ScoopConstants = ScoopConstants(
    isOrigin: bool,
    workerName: string,
    brokerName: string,
    brokerAddress: string,
    metaAddress: string,
    size: int,
    debug: bool,
    worker: (string, string),
    valid: bool)

  /** The user program handed to `futures._startup`, run as `__main__`; with
      profiling on, cProfile writes its statistics to the file `profileOutput`. */
  datatype Startup = Startup(executable: string, profileOutput: Option<string>)

  datatype PyException = ValueError | AttributeError

  /** How `main` ends: normally, through `sys.exit`, or with an exception. */
  datatype Outcome = Returned | SystemExit(code: int) | Raised(exception: PyException)

  /** Everything a run of the script can change, as one value. */
  datatype ProcessState = ProcessState(
    cwd: string,
    sysPath: seq<string>,
    argv: seq<string>,
    globals: map<string, string>,
    stdout: string,
    stderr: string,
    log: seq<string>,
    priority: Option<int>,
    cpuAffinity: Option<string>,
    constants: Option<ScoopConstants>,
    started: Option<Startup>,
    scoopEnv: map<string, EnvValue>)

  const NiceFailed := "main bootstrap failed nice/setpriority"
  const AffinityFailed := "main bootstrap failed affinity/sched_setaffinity"
  const ChdirFailed := "main bootstrap failed startfrom/chdir"
  const AttemptFailed := "main bootstrap failed attempt"

  function ConstantsOf(args: MainArgs): ScoopConstants
  {
    ScoopConstants(args.origin, args.workerName, args.brokerName, args.brokerAddress,
                   args.metaAddress, args.size, args.debug, (args.workerName, args.brokerName), true)
  }

  /** The directory the user's script is imported from. */
  function ModuleDirectory(cwd: string, executable: string): string
  {
    PathJoin(cwd, DirName(executable))
  }

  /** The module name imported for the script: its base name without the last
      three characters (the `.py`). */
  function ModuleName(executable: string): (name: string)
    ensures '/' !in name
  {
    DropLastThree(BaseName(executable))
  }

  /** A script `dir + name + ".py"` is imported as module `name`. */
  lemma ModuleNameOfScript(dir: string, name: string)
    requires dir == [] || dir[|dir| - 1] == '/'
    requires '/' !in name
    ensures ModuleName(dir + name + ".py") == name
  {
    var p := dir + name + ".py";
    var file := name + ".py";
    assert p[|dir|..] == file;
    assert '/' !in file;
    if dir != [] {
      assert p[|dir| - 1] == dir[|dir| - 1];
    }
    SplitPointAt(p, |dir|);
    assert file[..|file| - 3] == name;
  }

  /** `if not x in xs: xs.append(x)`. */
  function AppendIfAbsent(xs: seq<string>, x: string): (r: seq<string>)
    ensures x in r && xs <= r && |r| <= |xs| + 1
    ensures x in xs ==> r == xs
    ensures x !in xs ==> r[|r| - 1] == x
  {
    if x in xs then xs else xs + [x]
  }

  /** Adding the same entry a second time changes nothing. */
  lemma AppendIfAbsentIdempotent(xs: seq<string>, x: string)
    ensures AppendIfAbsent(AppendIfAbsent(xs, x), x) == AppendIfAbsent(xs, x)
  {
  }

  /** The message written to standard error when the script cannot be imported. */
  function ImportFailure(name: string, lastPath: string): string
  {
    "No module named " + name + "\nIn path: " + lastPath + "\n"
  }

  /** The names copied into the globals: `__all__`, or else `dir()`. */
  function ExportedNames(m: UserModule): seq<string>
  {
    if m.exportList.Some? then m.exportList.value else m.dirNames
  }

  /** Index of the first name the module lacks (`getattr` raises there), or
      the number of names when it has them all. */
  function FirstMissing(names: seq<string>, attributes: map<string, string>): (k: nat)
    ensures k <= |names|
    ensures forall j :: 0 <= j < k ==> names[j] in attributes
    ensures k < |names| ==> names[k] !in attributes
    decreases |names|
  {
    if names == [] || names[0] !in attributes then 0
    else 1 + FirstMissing(names[1..], attributes)
  }

  /** `FirstMissing` is the only index with all names before it present and a
      missing name (or the end) at it. */
  lemma {:induction false} FirstMissingUnique(names: seq<string>, attributes: map<string, string>, k: nat)
    requires k <= |names|
    requires forall j :: 0 <= j < k ==> names[j] in attributes
    requires k < |names| ==> names[k] !in attributes
    ensures FirstMissing(names, attributes) == k
    decreases k
  {
    if k > 0 {
      assert names[0] in attributes;
      FirstMissingUnique(names[1..], attributes, k - 1);
    }
  }

  /** The globals after `globals()[n] = getattr(module, n)` for each of `names`
      in order. */
  function MergeAll(globals: map<string, string>, names: seq<string>, attributes: map<string, string>): (r: map<string, string>)
    requires forall j :: 0 <= j < |names| ==> names[j] in attributes
    decreases |names|
  {
    if names == [] then globals
    else
      var last := names[|names| - 1];
      MergeAll(globals, names[..|names| - 1], attributes)[last := attributes[last]]
  }

  /** Merging adds exactly the given names, each bound to the module's value,
      and keeps every other global. */
  lemma {:induction false} MergeAllBindings(globals: map<string, string>, names: seq<string>, attributes: map<string, string>)
    requires forall j :: 0 <= j < |names| ==> names[j] in attributes
    ensures var r := MergeAll(globals, names, attributes);
      (forall n :: n in r <==> n in globals || n in names) &&
      (forall n :: n in names ==> r[n] == attributes[n]) &&
      (forall n :: n in globals && n !in names ==> r[n] == globals[n])
    decreases |names|
  {
    if names != [] {
      var init := names[..|names| - 1];
      assert names == init + [names[|names| - 1]];
      MergeAllBindings(globals, init, attributes);
    }
  }

  /** The loop `for attr in attrlist: globals()[attr] = getattr(user_module, attr)`:
      the merged globals, and the name `getattr` stopped at, if any. */
  method MergeExports(globals: map<string, string>, names: seq<string>, attributes: map<string, string>)
      returns (merged: map<string, string>, missing: Option<string>)
    ensures missing.None? <==> forall j :: 0 <= j < |names| ==> names[j] in attributes
    ensures missing.Some? ==> missing.value !in attributes && missing.value in names
    ensures merged == MergeAll(globals, names[..FirstMissing(names, attributes)], attributes)
  {
    merged := globals;
    var i := 0;
    while i < |names|
      invariant 0 <= i <= |names|
      invariant forall j :: 0 <= j < i ==> names[j] in attributes
      invariant merged == MergeAll(globals, names[..i], attributes)
    {
      if names[i] !in attributes {
        FirstMissingUnique(names, attributes, i);
        return merged, Some(names[i]);
      }
      var next := names[..i + 1];
      assert next[..i] == names[..i] && next[i] == names[i];
      merged := merged[names[i] := attributes[names[i]]];
      i := i + 1;
    }
    FirstMissingUnique(names, attributes, i);
    assert names[..i] == names;
    missing := None;
  }

  /** The fields the resource options leave alone. */
  predicate SameProgramState(s: ProcessState, r: ProcessState)
  {
    r.sysPath == s.sysPath && r.argv == s.argv && r.globals == s.globals &&
    r.stdout == s.stdout && r.stderr == s.stderr && r.started == s.started && r.scoopEnv == s.scoopEnv
  }

  /** `affinity.setpriority(nice)`, when a nice level is given. */
  function AfterNice(s: ProcessState, nice: Option<int>, fails: bool): (r: ProcessState)
    ensures SameProgramState(s, r)
  {
    if nice.None? then s
    else if fails then s.(log := s.log + [NiceFailed])
    else s.(priority := nice)
  }

  /** `affinity.sched_setaffinity(...)`, when an affinity is given. */
  function AfterAffinity(s: ProcessState, affinity: Option<string>, fails: bool): (r: ProcessState)
    ensures SameProgramState(s, r)
  {
    if affinity.None? then s
    else if fails then s.(log := s.log + [AffinityFailed])
    else s.(cpuAffinity := affinity)
  }

  /** `os.chdir(startfrom)`, when a start directory is given. */
  function AfterChdir(s: ProcessState, startfrom: Option<string>, fails: bool): (r: ProcessState)
    ensures SameProgramState(s, r)
  {
    if startfrom.None? then s
    else if fails then s.(log := s.log + [ChdirFailed])
    else s.(cwd := PathJoin(s.cwd, startfrom.value))
  }

  /** The state after the nice level, the CPU affinity and the start directory
      are applied; each is tried on its own and a failure is only logged. */
  function AfterResources(s: ProcessState, args: MainArgs, os: Os): (r: ProcessState)
    ensures SameProgramState(s, r)
  {
    AfterChdir(AfterAffinity(AfterNice(s, args.nice, os.setpriorityFails),
                             args.affinity, os.setaffinityFails),
               args.startfrom, os.chdirFails)
  }

  /** The state once `main` has applied the resource options, published the
      SCOOP constants, put the script's directory on `sys.path`, handed the
      user's arguments to `sys.argv` and echoed the process group; the globals,
      standard error and the started program are not touched yet. */
  function Setup(s: ProcessState, args: MainArgs, os: Os): (t: ProcessState)
    ensures t.globals == s.globals && t.stderr == s.stderr && t.started == s.started && t.scoopEnv == s.scoopEnv
    ensures t.sysPath == AppendIfAbsent(s.sysPath, ModuleDirectory(AfterResources(s, args, os).cwd, args.executable))
    ensures |s.argv| >= 1 ==> t.argv == [s.argv[0]] + args.args
    ensures t.constants == Some(ConstantsOf(args))
  {
    var r := AfterResources(s, args, os);
    r.(constants := Some(ConstantsOf(args)),
       sysPath := AppendIfAbsent(r.sysPath, ModuleDirectory(r.cwd, args.executable)),
       argv := (if |r.argv| >= 1 then r.argv[..1] else []) + args.args,
       stdout := if args.echoGroup then r.stdout + IntToString(os.processGroup) + "\n" else r.stdout)
  }

  /** How `main(args)` ends. */
  function MainOutcome(args: MainArgs, os: Os): (o: Outcome)
    ensures o == Raised(ValueError) <==> ModuleName(args.executable) == ""
    ensures o.SystemExit? <==> ModuleName(args.executable) != "" && ModuleName(args.executable) !in os.modules
    ensures o.SystemExit? ==> o.code == -1
    ensures o == Raised(AttributeError) <==>
      var name := ModuleName(args.executable);
      name != "" && name in os.modules &&
      exists j :: 0 <= j < |ExportedNames(os.modules[name])| &&
        ExportedNames(os.modules[name])[j] !in os.modules[name].attributes
  {
    var name := ModuleName(args.executable);
    if name == "" then Raised(ValueError)
    else if name !in os.modules then SystemExit(-1)
    else
      var m := os.modules[name];
      var names := ExportedNames(m);
      if FirstMissing(names, m.attributes) < |names| then Raised(AttributeError) else Returned
  }

  /** The program `main` starts once the user's names are in place. */
  function StartupOf(args: MainArgs): Startup
  {
    Startup(args.executable, if args.profile then Some(args.workerName) else None)
  }

  /** The copy of the module's names into the globals, and the start of the
      user program once every name is copied. */
  function AfterMerge(t: ProcessState, m: UserModule, args: MainArgs): (r: ProcessState)
    ensures r.sysPath == t.sysPath && r.argv == t.argv && r.stderr == t.stderr && r.stdout == t.stdout
    ensures r.constants == t.constants && r.scoopEnv == t.scoopEnv
    ensures FirstMissing(ExportedNames(m), m.attributes) == |ExportedNames(m)| ==> r.started == Some(StartupOf(args))
    ensures FirstMissing(ExportedNames(m), m.attributes) < |ExportedNames(m)| ==> r.started == t.started
  {
    var names := ExportedNames(m);
    var k := FirstMissing(names, m.attributes);
    var u := t.(globals := MergeAll(t.globals, names[..k], m.attributes));
    if k < |names| then u else u.(started := Some(StartupOf(args)))
  }

  /** The import of the user's script and the copy of its names, from the
      state `t` that `Setup` left. */
  function AfterImport(t: ProcessState, args: MainArgs, os: Os): (r: ProcessState)
    requires t.sysPath != []
    ensures r.sysPath == t.sysPath && r.argv == t.argv && r.stdout == t.stdout && r.constants == t.constants
    ensures r.scoopEnv == t.scoopEnv
    ensures MainOutcome(args, os) == Returned ==> r.started == Some(StartupOf(args))
    ensures MainOutcome(args, os) != Returned ==> r.started == t.started
    ensures MainOutcome(args, os).SystemExit? ==>
      r.globals == t.globals &&
      r.stderr == t.stderr + ImportFailure(ModuleName(args.executable), t.sysPath[|t.sysPath| - 1])
  {
    var name := ModuleName(args.executable);
    if name == "" then
      assert MainOutcome(args, os) == Raised(ValueError);
      t
    else if name !in os.modules then
      assert MainOutcome(args, os) == SystemExit(-1);
      t.(stderr := t.stderr + ImportFailure(name, t.sysPath[|t.sysPath| - 1]))
    else
      var m := os.modules[name];
      assert MainOutcome(args, os) == Returned
        <==> FirstMissing(ExportedNames(m), m.attributes) == |ExportedNames(m)|;
      AfterMerge(t, m, args)
  }

  /** The state after `main(args)`. */
  function AfterMain(s: ProcessState, args: MainArgs, os: Os): (r: ProcessState)
    ensures r.sysPath == AppendIfAbsent(s.sysPath, ModuleDirectory(AfterResources(s, args, os).cwd, args.executable))
    ensures r.constants == Some(ConstantsOf(args)) && r.scoopEnv == s.scoopEnv
    ensures MainOutcome(args, os) == Returned ==> r.started == Some(StartupOf(args))
    ensures MainOutcome(args, os) != Returned ==> r.started == s.started
  {
    AfterImport(Setup(s, args, os), args, os)
  }

  /** `main` returns normally exactly when the script is imported and every
      exported name resolves, and only then is the user program started, as
      `__main__`, profiled into a file named after the worker when asked. */
  lemma MainReturnsIffStarted(s: ProcessState, args: MainArgs, os: Os)
    requires s.started.None?
    ensures MainOutcome(args, os) == Returned <==>
      var name := ModuleName(args.executable);
      name != "" && name in os.modules &&
      forall j :: 0 <= j < |ExportedNames(os.modules[name])| ==>
        ExportedNames(os.modules[name])[j] in os.modules[name].attributes
    ensures AfterMain(s, args, os).started.Some? <==> MainOutcome(args, os) == Returned
    ensures MainOutcome(args, os) == Returned ==> AfterMain(s, args, os).started == Some(StartupOf(args))
  {
    var name := ModuleName(args.executable);
    if name != "" && name in os.modules {
      var m := os.modules[name];
      var names := ExportedNames(m);
      if forall j :: 0 <= j < |names| ==> names[j] in m.attributes {
        FirstMissingUnique(names, m.attributes, |names|);
      }
    }
    assert Setup(s, args, os).started.None?;
  }

  /** When every exported name resolves, each of them holds the module's
      value afterwards, every other global keeps its own, and the user program
      is started. */
  lemma MergeExportsNames(t: ProcessState, m: UserModule, args: MainArgs)
    requires forall j :: 0 <= j < |ExportedNames(m)| ==> ExportedNames(m)[j] in m.attributes
    ensures var r := AfterMerge(t, m, args);
      (forall n :: n in ExportedNames(m) ==> n in r.globals && r.globals[n] == m.attributes[n]) &&
      (forall n :: n in t.globals && n !in ExportedNames(m) ==> n in r.globals && r.globals[n] == t.globals[n]) &&
      r.started == Some(StartupOf(args))
  {
    var names := ExportedNames(m);
    FirstMissingUnique(names, m.attributes, |names|);
    assert names[..|names|] == names;
    MergeAllBindings(t.globals, names, m.attributes);
  }

  /** The script's directory is on `sys.path` afterwards, nothing already there
      moves, the user's arguments follow the program name in `sys.argv` and
      the SCOOP constants are published, whether or not the import then
      succeeds. */
  lemma MainPathAndArguments(s: ProcessState, args: MainArgs, os: Os)
    requires |s.argv| >= 1
    ensures var t := AfterMain(s, args, os);
      ModuleDirectory(AfterResources(s, args, os).cwd, args.executable) in t.sysPath &&
      s.sysPath <= t.sysPath && |t.sysPath| <= |s.sysPath| + 1 &&
      t.argv == [s.argv[0]] + args.args &&
      t.constants == Some(ConstantsOf(args))
  {
    var u := Setup(s, args, os);
    assert AfterMain(s, args, os) == AfterImport(u, args, os);
  }

  /** With `echoGroup` the process group and a newline are written to standard
      output, before the import is tried and whatever its outcome; without it
      standard output is left alone. */
  lemma EchoGroupBeforeImport(s: ProcessState, args: MainArgs, os: Os)
    ensures AfterMain(s, args, os).stdout ==
      s.stdout + (if args.echoGroup then IntToString(os.processGroup) + "\n" else "")
  {
    var r := AfterResources(s, args, os);
    var t := Setup(s, args, os);
    assert r.stdout == s.stdout;
    assert t.stdout == if args.echoGroup then r.stdout + IntToString(os.processGroup) + "\n" else r.stdout;
  }

  /** When the import fails, standard error names the missing module and the
      script's directory (it was appended last unless it was already on the
      path), the globals are untouched and nothing is started. */
  lemma ImportFailureReport(s: ProcessState, args: MainArgs, os: Os)
    requires ModuleName(args.executable) != "" && ModuleName(args.executable) !in os.modules
    requires ModuleDirectory(AfterResources(s, args, os).cwd, args.executable) !in s.sysPath
    ensures MainOutcome(args, os) == SystemExit(-1)
    ensures var t := AfterMain(s, args, os);
      t.stderr == s.stderr + ImportFailure(ModuleName(args.executable),
                                           ModuleDirectory(AfterResources(s, args, os).cwd, args.executable)) &&
      t.globals == s.globals && t.started == s.started
  {
  }

  /** The three resource options are independent: each takes effect exactly
      when it is given and its own call succeeds. */
  lemma ResourceOptionsIndependent(s: ProcessState, args: MainArgs, os: Os)
    ensures var r := AfterResources(s, args, os);
      (r.priority == if args.nice.Some? && !os.setpriorityFails then args.nice else s.priority) &&
      (r.cpuAffinity == if args.affinity.Some? && !os.setaffinityFails then args.affinity else s.cpuAffinity) &&
      (r.cwd == if args.startfrom.Some? && !os.chdirFails then PathJoin(s.cwd, args.startfrom.value) else s.cwd)
  {
    var s1 := AfterNice(s, args.nice, os.setpriorityFails);
    var s2 := AfterAffinity(s1, args.affinity, os.setaffinityFails);
    assert s1.cwd == s.cwd && s1.cpuAffinity == s.cpuAffinity;
    assert s2.cwd == s1.cwd && s2.priority == s1.priority;
  }

  /** One message is logged per failed resource call, in the order the calls
      are made. */
  lemma ResourceFailuresLogged(s: ProcessState, args: MainArgs, os: Os)
    ensures AfterResources(s, args, os).log ==
      s.log + (if args.nice.Some? && os.setpriorityFails then [NiceFailed] else [])
            + (if args.affinity.Some? && os.setaffinityFails then [AffinityFailed] else [])
            + (if args.startfrom.Some? && os.chdirFails then [ChdirFailed] else [])
  {
    var s1 := AfterNice(s, args.nice, os.setpriorityFails);
    var s2 := AfterAffinity(s1, args.affinity, os.setaffinityFails);
    assert s1.log == s.log + (if args.nice.Some? && os.setpriorityFails then [NiceFailed] else []);
    assert s2.log == s1.log + (if args.affinity.Some? && os.setaffinityFails then [AffinityFailed] else []);
  }

  /** The `except` clause around `main` in the script's `__main__` block: a
      bare `except:`, as written, or `except Exception:`. */
  datatype Handler = BareExcept | ExceptException

  /** Python's rule for which endings of `main` a handler catches: a bare
      `except:` catches every exception, `SystemExit` included, while
      `except Exception:` lets `SystemExit` through, since it derives from
      `BaseException` only. A normal return raises nothing. */
  predicate Catches(h: Handler, outcome: Outcome)
  {
    match outcome
    case Returned => false
    case Raised(_) => true
    case SystemExit(_) => h == BareExcept
  }

  /** The exit status of the script: the code of a `SystemExit` the handler
      lets through, and 0 otherwise, since a caught exception is logged and
      the script then ends normally. */
  function ExitStatus(h: Handler, outcome: Outcome): int
  {
    if outcome.SystemExit? && !Catches(h, outcome) then outcome.code else 0
  }

  /** As written, the bare `except:` turns every way `main` can end into
      exit status 0. */
  lemma BareExceptHidesExit()
    ensures forall outcome :: ExitStatus(BareExcept, outcome) == 0
  {
    forall outcome
      ensures ExitStatus(BareExcept, outcome) == 0
    {
      assert !outcome.SystemExit? || Catches(BareExcept, outcome);
    }
  }

  /** With `except Exception:` the exit status is non-zero exactly when `main`
      calls `sys.exit` with a non-zero code. */
  lemma ExceptExceptionReportsExit()
    ensures forall outcome :: ExitStatus(ExceptException, outcome) != 0 <==> outcome.SystemExit? && outcome.code != 0
  {
    forall outcome
      ensures ExitStatus(ExceptException, outcome) != 0 <==> outcome.SystemExit? && outcome.code != 0
    {
      assert outcome.SystemExit? ==> !Catches(ExceptException, outcome);
    }
  }

  /** `set_scoop_env('worker_name', ...)` and `set_scoop_env('worker_origin', ...)`. */
  function WithWorkerEnv(s: ProcessState, args: MainArgs): ProcessState
  {
    s.(scoopEnv := s.scoopEnv["worker_name" := StrValue(args.workerName)]
                             ["worker_origin" := IntValue(if args.origin then 1 else 0)])
  }

  /** The state after the script's `__main__` block: the worker name and the
      origin flag go to the SCOOP environment, `main` runs, and an exception
      the handler catches is logged once. */
  function AfterScript(s: ProcessState, args: MainArgs, os: Os, h: Handler): (r: ProcessState)
    ensures r.log == AfterMain(WithWorkerEnv(s, args), args, os).log
                     + (if Catches(h, MainOutcome(args, os)) then [AttemptFailed] else [])
    ensures r.scoopEnv == s.scoopEnv["worker_name" := StrValue(args.workerName)]
                                    ["worker_origin" := IntValue(if args.origin then 1 else 0)]
    ensures MainOutcome(args, os) == Returned ==> r.started == Some(StartupOf(args))
    ensures MainOutcome(args, os) != Returned ==> r.started == s.started
  {
    var t := AfterMain(WithWorkerEnv(s, args), args, os);
    if Catches(h, MainOutcome(args, os)) then t.(log := t.log + [AttemptFailed]) else t
  }

  /** A worker whose script cannot be imported exits with status 0 as
      written, and with -1 under `except Exception:`. */
  lemma ImportFailureExitStatusLost(args: MainArgs, os: Os)
    requires ModuleName(args.executable) != "" && ModuleName(args.executable) !in os.modules
    ensures ExitStatus(BareExcept, MainOutcome(args, os)) == 0
    ensures ExitStatus(ExceptException, MainOutcome(args, os)) == -1
  {
  }

  /** With `except Exception:` the exit status is non-zero exactly when the
      script cannot be imported. */
  lemma ExitStatusReportsImportFailure(args: MainArgs, os: Os)
    ensures ExitStatus(ExceptException, MainOutcome(args, os)) != 0 <==>
      ModuleName(args.executable) != "" && ModuleName(args.executable) !in os.modules
  {
  }

  /** The process running the start-up script. */
  class WorkerProcess {
    var cwd: string
    var sysPath: seq<string>
    var argv: seq<string>
    var globals: map<string, string>
    var stdout: string
    var stderr: string
    var log: seq<string>
    var priority: Option<int>
    var cpuAffinity: Option<string>
    var constants: Option<ScoopConstants>
    var started: Option<Startup>
    var scoopEnv: map<string, EnvValue>

    /** The process state as one value. */
    function State(): ProcessState
      reads this
    {
      ProcessState(cwd, sysPath, argv, globals, stdout, stderr, log, priority,
                   cpuAffinity, constants, started, scoopEnv)
    }

    constructor (cwd: string, sysPath: seq<string>, argv: seq<string>, globals: map<string, string>)
      ensures State() == ProcessState(cwd, sysPath, argv, globals, "", "", [], None, None, None, None, map[])
    {
      this.cwd := cwd;
      this.sysPath := sysPath;
      this.argv := argv;
      this.globals := globals;
      stdout := "";
      stderr := "";
      log := [];
      priority := None;
      cpuAffinity := None;
      constants := None;
      started := None;
      scoopEnv := map[];
    }

    /** `affinity.setpriority(nice)` in its own `try`. */
    method SetNice(nice: Option<int>, fails: bool)
      modifies this
      ensures State() == AfterNice(old(State()), nice, fails)
    {
      if nice.Some? {
        if fails {
          log := log + [NiceFailed];
        } else {
          priority := nice;
        }
      }
    }

    /** `affinity.sched_setaffinity(...)` in its own `try`. */
    method SetAffinity(affinity: Option<string>, fails: bool)
      modifies this
      ensures State() == AfterAffinity(old(State()), affinity, fails)
    {
      if affinity.Some? {
        if fails {
          log := log + [AffinityFailed];
        } else {
          cpuAffinity := affinity;
        }
      }
    }

    /** `os.chdir(startfrom)` in its own `try`. */
    method ChangeDirectory(startfrom: Option<string>, fails: bool)
      modifies this
      ensures State() == AfterChdir(old(State()), startfrom, fails)
    {
      if startfrom.Some? {
        if fails {
          log := log + [ChdirFailed];
        } else {
          cwd := PathJoin(cwd, startfrom.value);
        }
      }
    }

    /** The nice level, the CPU affinity and the start directory. */
    method ApplyResourceOptions(args: MainArgs, os: Os)
      modifies this
      ensures State() == AfterResources(old(State()), args, os)
    {
      SetNice(args.nice, os.setpriorityFails);
      SetAffinity(args.affinity, os.setaffinityFails);
      ChangeDirectory(args.startfrom, os.chdirFails);
    }

    /** `main` up to the import of the user's script. */
    method PrepareWorker(args: MainArgs, os: Os)
      modifies this
      ensures State() == Setup(old(State()), args, os)
    {
      ApplyResourceOptions(args, os);
      constants := Some(ConstantsOf(args));
      var mdPath := ModuleDirectory(cwd, args.executable);
      if mdPath !in sysPath {
        sysPath := sysPath + [mdPath];
      }
      argv := (if |argv| >= 1 then argv[..1] else []) + args.args;
      if args.echoGroup {
        stdout := stdout + IntToString(os.processGroup) + "\n";
      }
    }

    /** The copy of the module's names into the globals, then the start of
        the user program. */
    method CopyExports(m: UserModule, args: MainArgs) returns (outcome: Outcome)
      modifies this
      ensures State() == AfterMerge(old(State()), m, args)
      ensures outcome == if FirstMissing(ExportedNames(m), m.attributes) < |ExportedNames(m)|
                         then Raised(AttributeError) else Returned
    {
      var names := ExportedNames(m);
      var merged, missing := MergeExports(globals, names, m.attributes);
      globals := merged;
      if missing.Some? {
        return Raised(AttributeError);
      }
      started := Some(StartupOf(args));
      outcome := Returned;
    }

    /** `main` from the import of the user's script on. */
    method ImportUserModule(args: MainArgs, os: Os) returns (outcome: Outcome)
      requires sysPath != []
      modifies this
      ensures State() == AfterImport(old(State()), args, os)
      ensures outcome == MainOutcome(args, os)
    {
      var name := ModuleName(args.executable);
      if name == "" {
        assert AfterImport(old(State()), args, os) == old(State());
        return Raised(ValueError);
      }
      if name !in os.modules {
        stderr := stderr + ImportFailure(name, sysPath[|sysPath| - 1]);
        assert State() == old(State()).(stderr := stderr);
        return SystemExit(-1);
      }
      assert AfterImport(old(State()), args, os) == AfterMerge(old(State()), os.modules[name], args);
      outcome := CopyExports(os.modules[name], args);
    }

    /** `main(args)`. */
    method StartWorker(args: MainArgs, os: Os) returns (outcome: Outcome)
      modifies this
      ensures State() == AfterMain(old(State()), args, os)
      ensures outcome == MainOutcome(args, os)
    {
      PrepareWorker(args, os);
      outcome := ImportUserModule(args, os);
    }

    /** The script's `__main__` block, with the handler `h` around `main`
        (`BareExcept` as written). `status` is the exit status the
        interpreter reports afterwards. */
    method RunAsScript(args: MainArgs, os: Os, h: Handler) returns (outcome: Outcome, status: int)
      modifies this
      ensures State() == AfterScript(old(State()), args, os, h)
      ensures outcome == MainOutcome(args, os)
      ensures status == ExitStatus(h, outcome)
    {
      scoopEnv := scoopEnv["worker_name" := StrValue(args.workerName)];
      scoopEnv := scoopEnv["worker_origin" := IntValue(if args.origin then 1 else 0)];
      ghost var e := State();
      assert e == WithWorkerEnv(old(State()), args);
      outcome := StartWorker(args, os);
      ghost var t := State();
      assert t == AfterMain(e, args, os);
      if Catches(h, outcome) {
        log := log + [AttemptFailed];
        assert State() == t.(log := t.log + [AttemptFailed]);
      }
      status := ExitStatus(h, outcome);
    }
  }
}
