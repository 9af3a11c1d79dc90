/** The worker side of the SCOOP integration (lib/vsc/mympirun/scoop/bootstrap.py):
    the options the bootstrap adds to SCOOP's parser and what it does with
    them right after parsing, before the user's code runs: record the
    free-origin flag, set the nice level and the CPU affinity through the
    first matching controller, and record the worker's name and origin flag.
    Controllers, `set_scoop_env` and logging are recorded as effects; a
    controller call that raises is recorded and ends `parse` there, since
    nothing in the bootstrap catches it. */
module ScoopBootstrap {
  import opened Common
  import opened Strings
  import MyScoop

  /** One externally visible step of the bootstrap extension. */
  datatype Effect =
    | SetScoopEnv(key: string, value: EnvValue)
    | LogError(message: string)
    | SetPriority(controller: string, level: int)
    | RunAffinityAlgorithm(controller: string, params: seq<string>)

  /** The parsed command line, as far as the extension reads it. */
  datatype BootstrapArgs = BootstrapArgs(
    origin: bool,
    workerName: string,
    externalBrokerHostname: string,
    freeorigin: bool,
    processcontrol: Option<string>,
    nice: Option<int>,
    affinity: Option<string>)

  /** `"%s" % mode` for an optional mode. */
  function ShowMode(mode: Option<string>): string
  {
    if mode.None? then "None" else mode.value
  }

  // ---------------------------------------------------------------------------
  // The affinity string

  /** `affinity.split(':')` followed by `pop(0)`: the algorithm and the
      parameters that follow it. */
  function ParseAffinity(s: string): (r: (string, seq<string>))
    ensures ':' !in r.0
    ensures forall k :: 0 <= k < |r.1| ==> ':' !in r.1[k]
    ensures Join([r.0] + r.1, ':') == s
  {
    var fields := Split(s, ':');
    JoinSplit(s, ':');
    assert fields == [fields[0]] + fields[1..];
    (fields[0], fields[1..])
  }

  /** Parsing the `--affinity` value the launcher renders gives back the
      algorithm, and parameters that read back as the host's worker count
      and the worker's index on it. */
  lemma {:induction false} AffinityRoundTrip(a: MyScoop.AffinityInfo)
    requires ':' !in a.algorithm
    ensures ParseAffinity(MyScoop.FormatAffinity(a)).0 == a.algorithm
    ensures ParseAffinity(MyScoop.FormatAffinity(a)).1 == [IntToString(a.totalWorkersHost), IntToString(a.workerIdxHost)]
    ensures ParseInt(ParseAffinity(MyScoop.FormatAffinity(a)).1[0]) == Some(a.totalWorkersHost)
    ensures ParseInt(ParseAffinity(MyScoop.FormatAffinity(a)).1[1]) == Some(a.workerIdxHost)
  {
    var total, idx := IntToString(a.totalWorkersHost), IntToString(a.workerIdxHost);
    var fields := [a.algorithm, total, idx];
    IntToStringAvoids(a.totalWorkersHost, ':');
    IntToStringAvoids(a.workerIdxHost, ':');
    SplitJoin(fields, ':');
    IntRoundTrip(a.totalWorkersHost);
    IntRoundTrip(a.workerIdxHost);
  }

  // ---------------------------------------------------------------------------
  // Reading the extension's options

  /** The values of the four options this extension declares. */
  datatype ExtensionOptions = ExtensionOptions(
    freeorigin: bool,
    processcontrol: Option<string>,
    nice: Option<int>,
    affinity: Option<string>)

  /** Reads a list of extension options onto `parsed`: a later occurrence of
      an option overrides an earlier one, `--nice` takes an integer, and an
      unknown token or a missing value makes the whole list unreadable. */
  function ReadOptions(tokens: seq<string>, parsed: ExtensionOptions): (r: Option<ExtensionOptions>)
    ensures tokens == [] ==> r == Some(parsed)
    ensures r.Some? && parsed.freeorigin ==> r.value.freeorigin
    ensures r.Some? && "--freeorigin" !in tokens ==> r.value.freeorigin == parsed.freeorigin
    ensures r.Some? && "--processcontrol" !in tokens ==> r.value.processcontrol == parsed.processcontrol
    ensures r.Some? && "--nice" !in tokens ==> r.value.nice == parsed.nice
    ensures r.Some? && "--affinity" !in tokens ==> r.value.affinity == parsed.affinity
    ensures r.Some? && r.value.nice.Some? && r.value.nice != parsed.nice ==> "--nice" in tokens
    decreases |tokens|
  {
    if tokens == [] then Some(parsed)
    else if tokens[0] == "--freeorigin" then ReadOptions(tokens[1..], parsed.(freeorigin := true))
    else if |tokens| < 2 then None
    else if tokens[0] == "--processcontrol" then ReadOptions(tokens[2..], parsed.(processcontrol := Some(tokens[1])))
    else if tokens[0] == "--nice" && ParseInt(tokens[1]).Some? then ReadOptions(tokens[2..], parsed.(nice := ParseInt(tokens[1])))
    else if tokens[0] == "--affinity" then ReadOptions(tokens[2..], parsed.(affinity := Some(tokens[1])))
    else None
  }

  lemma ReadFlagWithValue(flag: string, value: string, rest: seq<string>, parsed: ExtensionOptions)
    requires flag in {"--processcontrol", "--nice", "--affinity"}
    requires flag == "--nice" ==> ParseInt(value).Some?
    ensures ReadOptions([flag, value] + rest, parsed) == ReadOptions(rest,
      if flag == "--processcontrol" then parsed.(processcontrol := Some(value))
      else if flag == "--nice" then parsed.(nice := ParseInt(value))
      else parsed.(affinity := Some(value)))
  {
    assert ([flag, value] + rest)[2..] == rest;
  }

  /** Reading the optional `--affinity` and `--freeorigin` tail of a worker's
      options. */
  lemma ReadAffinityAndFreeOrigin(w: MyScoop.LaunchingArgs, parsed: ExtensionOptions)
    ensures var affinityFlags := if w.affinity.Some? then ["--affinity", MyScoop.FormatAffinity(w.affinity.value)] else [];
      ReadOptions(affinityFlags + MyScoop.FreeOriginOption(w), parsed) == Some(parsed.(
        freeorigin := parsed.freeorigin || (w.size == 1 && w.freeorigin),
        affinity := if w.affinity.Some? then Some(MyScoop.FormatAffinity(w.affinity.value)) else parsed.affinity))
  {
    var fo := MyScoop.FreeOriginOption(w);
    var afterFlags := parsed;
    if w.affinity.Some? {
      ReadFlagWithValue("--affinity", MyScoop.FormatAffinity(w.affinity.value), fo, parsed);
      afterFlags := parsed.(affinity := Some(MyScoop.FormatAffinity(w.affinity.value)));
    } else {
      assert [] + fo == fo;
    }
    if w.size == 1 && w.freeorigin {
      assert fo[1..] == [];
    }
  }

  /** What the bootstrap reads from the options the launcher renders for a
      worker: its process-control mode; its nice level and affinity string
      only when a mode is set; free-origin mode when the worker has size one
      and runs in free-origin mode. Everything else keeps its default. */
  lemma {:induction false} OptionsRoundTrip(w: MyScoop.LaunchingArgs, defaults: ExtensionOptions)
    ensures ReadOptions(MyScoop.ExtraOptions(w), defaults) == Some(ExtensionOptions(
      defaults.freeorigin || (w.size == 1 && w.freeorigin),
      if w.processcontrol.Some? then w.processcontrol else defaults.processcontrol,
      if w.processcontrol.Some? && w.nice.Some? then w.nice else defaults.nice,
      if w.processcontrol.Some? && w.affinity.Some? then Some(MyScoop.FormatAffinity(w.affinity.value)) else defaults.affinity))
  {
    var fo := MyScoop.FreeOriginOption(w);
    if w.processcontrol.Some? {
      var niceFlags := if w.nice.Some? then ["--nice", IntToString(w.nice.value)] else [];
      var affinityFlags := if w.affinity.Some? then ["--affinity", MyScoop.FormatAffinity(w.affinity.value)] else [];
      assert MyScoop.ExtraOptions(w) == ["--processcontrol", w.processcontrol.value] + (niceFlags + (affinityFlags + fo));
      ReadFlagWithValue("--processcontrol", w.processcontrol.value, niceFlags + (affinityFlags + fo), defaults);
      var afterControl := defaults.(processcontrol := w.processcontrol);
      var afterNice := afterControl;
      if w.nice.Some? {
        IntRoundTrip(w.nice.value);
        ReadFlagWithValue("--nice", IntToString(w.nice.value), affinityFlags + fo, afterControl);
        afterNice := afterControl.(nice := w.nice);
      } else {
        assert niceFlags + (affinityFlags + fo) == affinityFlags + fo;
      }
      ReadAffinityAndFreeOrigin(w, afterNice);
    } else {
      assert MyScoop.ExtraOptions(w) == fo;
      assert [] + fo == fo;
      ReadAffinityAndFreeOrigin(w.(affinity := None), defaults);
    }
  }

  // ---------------------------------------------------------------------------
  // The steps run after parsing

  /** `set_freeorigin`: the flag, stored as 1 or 0. */
  function FreeoriginEffects(a: BootstrapArgs): seq<Effect>
  {
    [SetScoopEnv("worker_freeorigin", IntValue(if a.freeorigin then 1 else 0))]
  }

  /** `set_nice`: nothing without a nice level; otherwise the level through
      the first priority controller for the mode, or an error when there is none. */
  function NiceEffects(a: BootstrapArgs, whatPriority: Option<string> -> seq<string>): seq<Effect>
  {
    if a.nice.None? then []
    else
      var control := whatPriority(a.processcontrol);
      if |control| == 0 then [LogError("set_nice no prioritymode found for " + ShowMode(a.processcontrol))]
      else [SetPriority(control[0], a.nice.value)]
  }

  /** `set_affinity`: nothing without an affinity string; otherwise the
      algorithm named first is looked up for the mode, and the first
      controller found runs it on the remaining fields. */
  function AffinityEffects(a: BootstrapArgs, whatAffinity: (Option<string>, string) -> seq<string>): seq<Effect>
  {
    if a.affinity.None? then []
    else
      var (algo, params) := ParseAffinity(a.affinity.value);
      var control := whatAffinity(a.processcontrol, algo);
      if |control| == 0 then
        [LogError("set_affinity no affinitymode and algorithm found for " + ShowMode(a.processcontrol) + " and " + algo)]
      else [RunAffinityAlgorithm(control[0], params)]
  }

  /** Whether `set_nice` raises: a controller was found and setting the
      level through it raised (`priorityRaises` says which calls do). */
  predicate NiceRaises(a: BootstrapArgs, whatPriority: Option<string> -> seq<string>,
                       priorityRaises: (string, int) -> bool)
  {
    a.nice.Some? && whatPriority(a.processcontrol) != []
    && priorityRaises(whatPriority(a.processcontrol)[0], a.nice.value)
  }

  /** Whether `set_affinity` raises: a controller was found and running the
      algorithm through it raised (`affinityRaises` says which calls do). */
  predicate AffinityRaises(a: BootstrapArgs, whatAffinity: (Option<string>, string) -> seq<string>,
                           affinityRaises: (string, seq<string>) -> bool)
  {
    a.affinity.Some?
    && var (algo, params) := ParseAffinity(a.affinity.value);
    whatAffinity(a.processcontrol, algo) != []
    && affinityRaises(whatAffinity(a.processcontrol, algo)[0], params)
  }

  /** `set_nice` records nothing without a nice level, a single error when
      no controller serves the mode, and otherwise exactly one call setting
      that level through the first controller. */
  lemma NiceEffectsCases(a: BootstrapArgs, whatPriority: Option<string> -> seq<string>)
    ensures a.nice.None? ==> NiceEffects(a, whatPriority) == []
    ensures a.nice.Some? && whatPriority(a.processcontrol) == [] ==>
      |NiceEffects(a, whatPriority)| == 1 && NiceEffects(a, whatPriority)[0].LogError?
    ensures a.nice.Some? && whatPriority(a.processcontrol) != [] ==>
      NiceEffects(a, whatPriority) == [SetPriority(whatPriority(a.processcontrol)[0], a.nice.value)]
  {
  }

  /** `set_affinity` records nothing without an affinity string; otherwise
      its first `:`-separated field names the algorithm, and either a single
      error is logged when no controller serves mode and algorithm, or the
      first controller runs the algorithm on the remaining fields, in order. */
  lemma AffinityEffectsCases(a: BootstrapArgs, whatAffinity: (Option<string>, string) -> seq<string>)
    ensures a.affinity.None? ==> AffinityEffects(a, whatAffinity) == []
    ensures a.affinity.Some? ==>
      var fields := Split(a.affinity.value, ':');
      var control := whatAffinity(a.processcontrol, fields[0]);
      && (control == [] ==> |AffinityEffects(a, whatAffinity)| == 1 && AffinityEffects(a, whatAffinity)[0].LogError?)
      && (control != [] ==> AffinityEffects(a, whatAffinity) == [RunAffinityAlgorithm(control[0], fields[1..])])
  {
  }

  /** `set_environment`: the worker's name (its broker host name from SCOOP
      0.7 on) and its origin flag as 1 or 0. */
  function EnvironmentEffects(a: BootstrapArgs, scoopAtLeast07: bool): seq<Effect>
  {
    [SetScoopEnv("worker_name", StrValue(if scoopAtLeast07 then a.externalBrokerHostname else a.workerName)),
     SetScoopEnv("worker_origin", IntValue(if a.origin then 1 else 0))]
  }

  /** The bootstrap's arguments once the extension options read from the
      command line have been taken over. */
  function WithOptions(a: BootstrapArgs, o: ExtensionOptions): BootstrapArgs
  {
    a.(freeorigin := o.freeorigin, processcontrol := o.processcontrol, nice := o.nice, affinity := o.affinity)
  }

  function OptionsOf(a: BootstrapArgs): ExtensionOptions
  {
    ExtensionOptions(a.freeorigin, a.processcontrol, a.nice, a.affinity)
  }

  /** The effects of the four steps `parse` runs, up to the controller call
      that raises, if one does: the free-origin flag always comes first, and
      without a raise all four steps run in order. */
  function ParseEffects(a: BootstrapArgs, scoopAtLeast07: bool,
                        whatPriority: Option<string> -> seq<string>,
                        whatAffinity: (Option<string>, string) -> seq<string>,
                        priorityRaises: (string, int) -> bool,
                        affinityRaises: (string, seq<string>) -> bool): (r: seq<Effect>)
    ensures FreeoriginEffects(a) <= r
    ensures !NiceRaises(a, whatPriority, priorityRaises) && !AffinityRaises(a, whatAffinity, affinityRaises) ==>
      r == FreeoriginEffects(a) + NiceEffects(a, whatPriority) + AffinityEffects(a, whatAffinity)
        + EnvironmentEffects(a, scoopAtLeast07)
  {
    FreeoriginEffects(a) + NiceEffects(a, whatPriority)
    + (if NiceRaises(a, whatPriority, priorityRaises) then []
       else AffinityEffects(a, whatAffinity)
            + (if AffinityRaises(a, whatAffinity, affinityRaises) then [] else EnvironmentEffects(a, scoopAtLeast07)))
  }

  /** A controller call that raises costs the worker its environment: the
      worker's origin flag is recorded exactly when no controller call
      raises. */
  lemma ParseRecordsOriginUnlessRaised(a: BootstrapArgs, scoopAtLeast07: bool,
                                       whatPriority: Option<string> -> seq<string>,
                                       whatAffinity: (Option<string>, string) -> seq<string>,
                                       priorityRaises: (string, int) -> bool,
                                       affinityRaises: (string, seq<string>) -> bool)
    ensures (exists e :: e in ParseEffects(a, scoopAtLeast07, whatPriority, whatAffinity, priorityRaises, affinityRaises)
                         && e.SetScoopEnv? && e.key == "worker_origin")
      <==> !NiceRaises(a, whatPriority, priorityRaises) && !AffinityRaises(a, whatAffinity, affinityRaises)
  {
    var r := ParseEffects(a, scoopAtLeast07, whatPriority, whatAffinity, priorityRaises, affinityRaises);
    var nice, affinity := NiceEffects(a, whatPriority), AffinityEffects(a, whatAffinity);
    NiceEffectsCases(a, whatPriority);
    AffinityEffectsCases(a, whatAffinity);
    assert forall e :: e in nice ==> !e.SetScoopEnv?;
    assert forall e :: e in affinity ==> !e.SetScoopEnv?;
    assert |"worker_freeorigin"| != |"worker_origin"|;
    var origin := EnvironmentEffects(a, scoopAtLeast07)[1];
    if NiceRaises(a, whatPriority, priorityRaises) {
      assert r == FreeoriginEffects(a) + nice;
    } else if AffinityRaises(a, whatAffinity, affinityRaises) {
      assert r == FreeoriginEffects(a) + nice + affinity;
    } else {
      assert origin in r;
    }
  }

  /** From launcher to controller: for a worker rendered with a
      process-control mode and an affinity, the bootstrap that reads the
      rendered options runs the first controller found for that mode and
      algorithm on exactly the host's worker count and the worker's index. */
  lemma LauncherAffinityReachesController(w: MyScoop.LaunchingArgs, a: BootstrapArgs,
                                          whatAffinity: (Option<string>, string) -> seq<string>,
                                          affinityRaises: (string, seq<string>) -> bool)
    requires w.processcontrol.Some? && w.affinity.Some? && ':' !in w.affinity.value.algorithm
    requires whatAffinity(w.processcontrol, w.affinity.value.algorithm) != []
    ensures ReadOptions(MyScoop.ExtraOptions(w), OptionsOf(a)).Some?
    ensures AffinityEffects(WithOptions(a, ReadOptions(MyScoop.ExtraOptions(w), OptionsOf(a)).value), whatAffinity)
      == [RunAffinityAlgorithm(whatAffinity(w.processcontrol, w.affinity.value.algorithm)[0],
            [IntToString(w.affinity.value.totalWorkersHost), IntToString(w.affinity.value.workerIdxHost)])]
    ensures AffinityRaises(WithOptions(a, ReadOptions(MyScoop.ExtraOptions(w), OptionsOf(a)).value), whatAffinity, affinityRaises)
      <==> affinityRaises(whatAffinity(w.processcontrol, w.affinity.value.algorithm)[0],
                          [IntToString(w.affinity.value.totalWorkersHost), IntToString(w.affinity.value.workerIdxHost)])
  {
    OptionsRoundTrip(w, OptionsOf(a));
    AffinityRoundTrip(w.affinity.value);
  }

  /** From launcher to controller: for a worker rendered with a
      process-control mode and a nice level, the bootstrap sets exactly that
      level through the first priority controller, or only logs an error
      when the mode has none. */
  lemma LauncherNiceReachesController(w: MyScoop.LaunchingArgs, a: BootstrapArgs,
                                      whatPriority: Option<string> -> seq<string>,
                                      priorityRaises: (string, int) -> bool)
    requires w.processcontrol.Some? && w.nice.Some?
    ensures ReadOptions(MyScoop.ExtraOptions(w), OptionsOf(a)).Some?
    ensures var effects := NiceEffects(WithOptions(a, ReadOptions(MyScoop.ExtraOptions(w), OptionsOf(a)).value), whatPriority);
      && (whatPriority(w.processcontrol) != [] ==> effects == [SetPriority(whatPriority(w.processcontrol)[0], w.nice.value)])
      && (whatPriority(w.processcontrol) == [] ==> |effects| == 1 && effects[0].LogError?)
    ensures NiceRaises(WithOptions(a, ReadOptions(MyScoop.ExtraOptions(w), OptionsOf(a)).value), whatPriority, priorityRaises)
      <==> whatPriority(w.processcontrol) != [] && priorityRaises(whatPriority(w.processcontrol)[0], w.nice.value)
  {
    OptionsRoundTrip(w, OptionsOf(a));
  }

  /** The options `makeParser` declares on top of SCOOP's own. */
  function ExtensionArgSpecs(scoopAtLeast07: bool): seq<ArgSpec<string>>
  {
    [ArgSpec("--freeorigin", BoolDefault(false)), ArgSpec("--processcontrol", NoneDefault)]
    + (if scoopAtLeast07 then [] else [ArgSpec("--nice", IntDefault(0))])
    + [ArgSpec("--affinity", NoneDefault)]
  }

  /** The extension's defaults: `--freeorigin` false, `--processcontrol` and
      `--affinity` None, and `--nice` 0, declared only before SCOOP 0.7
      (which declares it itself). */
  lemma ExtensionDefaults(scoopAtLeast07: bool)
    ensures var specs := ExtensionArgSpecs(scoopAtLeast07);
      && DefaultOf(specs, "--freeorigin") == Some(BoolDefault(false))
      && DefaultOf(specs, "--processcontrol") == Some(NoneDefault)
      && DefaultOf(specs, "--affinity") == Some(NoneDefault)
      && DefaultOf(specs, "--nice") == if scoopAtLeast07 then None else Some(IntDefault(0))
  {
    var front := [ArgSpec("--freeorigin", BoolDefault(false)), ArgSpec("--processcontrol", NoneDefault)];
    var nice: seq<ArgSpec<string>> := if scoopAtLeast07 then [] else [ArgSpec("--nice", IntDefault(0))];
    var back := [ArgSpec("--affinity", NoneDefault)];
    assert ExtensionArgSpecs(scoopAtLeast07) == front + nice + back;
    assert front[1..][1..] == [] && back[1..] == [];
    assert nice != [] ==> nice[1..] == [];
    DefaultOfAppend(front + nice, back, "--affinity");
    DefaultOfAppend(front, nice, "--affinity");
    DefaultOfAppend(front + nice, back, "--nice");
    DefaultOfAppend(front, nice, "--nice");
    DefaultOfAppend(front + nice, back, "--freeorigin");
    DefaultOfAppend(front, nice, "--freeorigin");
    DefaultOfAppend(front + nice, back, "--processcontrol");
    DefaultOfAppend(front, nice, "--processcontrol");
  }

  /** SCOOP's bootstrap, extended. `whatPriority` and `whatAffinity` are the
      capability lookups: the names of the controllers that can serve a
      mode (and an algorithm), best first. `priorityRaises` and
      `affinityRaises` say which controller calls raise. */
  class MyBootstrap {
    const scoopAtLeast07: bool
    const whatPriority: Option<string> -> seq<string>
    const whatAffinity: (Option<string>, string) -> seq<string>
    const priorityRaises: (string, int) -> bool
    const affinityRaises: (string, seq<string>) -> bool
    var parser: seq<ArgSpec<string>>
    var args: BootstrapArgs
    var effects: seq<Effect>

    constructor (scoopAtLeast07: bool, whatPriority: Option<string> -> seq<string>,
                 whatAffinity: (Option<string>, string) -> seq<string>,
                 priorityRaises: (string, int) -> bool, affinityRaises: (string, seq<string>) -> bool,
                 args: BootstrapArgs)
      ensures this.scoopAtLeast07 == scoopAtLeast07 && this.whatPriority == whatPriority
      ensures this.whatAffinity == whatAffinity && this.args == args
      ensures this.priorityRaises == priorityRaises && this.affinityRaises == affinityRaises
      ensures parser == [] && effects == []
    {
      this.scoopAtLeast07 := scoopAtLeast07;
      this.whatPriority := whatPriority;
      this.whatAffinity := whatAffinity;
      this.priorityRaises := priorityRaises;
      this.affinityRaises := affinityRaises;
      this.args := args;
      parser := [];
      effects := [];
    }

    /** `makeParser`: the extension's options, after SCOOP's own. */
    method MakeParser()
      modifies this`parser
      ensures parser == old(parser) + ExtensionArgSpecs(scoopAtLeast07)
    {
      parser := parser + [ArgSpec("--freeorigin", BoolDefault(false))];
      parser := parser + [ArgSpec("--processcontrol", NoneDefault)];
      if !scoopAtLeast07 {
        parser := parser + [ArgSpec("--nice", IntDefault(0))];
      }
      parser := parser + [ArgSpec("--affinity", NoneDefault)];
    }

    /** `parse`: SCOOP's parse (its result is `parsed`), then the four
        extension steps, in this order; `raised` is set when a controller
        call raised, which skips the steps after it. */
    method Parse(parsed: BootstrapArgs) returns (raised: bool)
      modifies this`args, this`effects
      ensures args == parsed
      ensures raised == (NiceRaises(parsed, whatPriority, priorityRaises) || AffinityRaises(parsed, whatAffinity, affinityRaises))
      ensures effects == old(effects)
        + ParseEffects(parsed, scoopAtLeast07, whatPriority, whatAffinity, priorityRaises, affinityRaises)
    {
      args := parsed;
      ghost var before := effects;
      SetFreeorigin();
      raised := SetNice();
      ghost var nice := FreeoriginEffects(parsed) + NiceEffects(parsed, whatPriority);
      assert effects == before + nice;
      if raised {
        return;
      }
      raised := SetAffinity();
      assert effects == before + (nice + AffinityEffects(parsed, whatAffinity));
      if raised {
        return;
      }
      SetEnvironment();
    }

    /** `set_freeorigin`: records `worker_freeorigin` as 1 when the flag is
        set, 0 otherwise. */
    method SetFreeorigin()
      modifies this`effects
      ensures effects == old(effects) + [SetScoopEnv("worker_freeorigin", IntValue(if args.freeorigin then 1 else 0))]
      ensures effects == old(effects) + FreeoriginEffects(args)
    {
      effects := effects + [SetScoopEnv("worker_freeorigin", IntValue(if args.freeorigin then 1 else 0))];
    }

    /** `set_nice`: with a nice level, the first priority controller for the
        mode gets exactly that level; when there is none only an error is
        logged. `raised` says whether the controller call raised. */
    method SetNice() returns (raised: bool)
      modifies this`effects
      ensures raised == NiceRaises(args, whatPriority, priorityRaises)
      ensures effects == old(effects) + NiceEffects(args, whatPriority)
    {
      raised := false;
      if args.nice.None? {
        return;
      }
      var control := whatPriority(args.processcontrol);
      if |control| == 0 {
        effects := effects + [LogError("set_nice no prioritymode found for " + ShowMode(args.processcontrol))];
      } else {
        var c := control[0];
        effects := effects + [SetPriority(c, args.nice.value)];
        raised := priorityRaises(c, args.nice.value);
      }
    }

    /** `set_affinity`: with an affinity string, its first field names the
        algorithm, and the first controller for mode and algorithm runs it
        on the remaining fields, in order; when there is none only an error
        is logged. `raised` says whether the controller call raised. */
    method SetAffinity() returns (raised: bool)
      modifies this`effects
      ensures raised == AffinityRaises(args, whatAffinity, affinityRaises)
      ensures effects == old(effects) + AffinityEffects(args, whatAffinity)
    {
      raised := false;
      if args.affinity.None? {
        return;
      }
      var affinityArgs := Split(args.affinity.value, ':');
      var algo := affinityArgs[0];
      affinityArgs := affinityArgs[1..];
      var control := whatAffinity(args.processcontrol, algo);
      if |control| == 0 {
        effects := effects + [LogError("set_affinity no affinitymode and algorithm found for "
          + ShowMode(args.processcontrol) + " and " + algo)];
      } else {
        var c := control[0];
        effects := effects + [RunAffinityAlgorithm(c, affinityArgs)];
        raised := affinityRaises(c, affinityArgs);
      }
    }

    /** `set_environment`: records the worker's name (its `workerName`
        before SCOOP 0.7, its `externalBrokerHostname` from 0.7 on) and its
        origin flag as 1 or 0. */
    method SetEnvironment()
      modifies this`effects
      ensures effects == old(effects) + [
        SetScoopEnv("worker_name", StrValue(if scoopAtLeast07 then args.externalBrokerHostname else args.workerName)),
        SetScoopEnv("worker_origin", IntValue(if args.origin then 1 else 0))]
      ensures effects == old(effects) + EnvironmentEffects(args, scoopAtLeast07)
    {
      if !scoopAtLeast07 {
        effects := effects + [SetScoopEnv("worker_name", StrValue(args.workerName))];
      } else {
        effects := effects + [SetScoopEnv("worker_name", StrValue(args.externalBrokerHostname))];
      }
      effects := effects + [SetScoopEnv("worker_origin", IntValue(if args.origin then 1 else 0))];
    }
  }
}
