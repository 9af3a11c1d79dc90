# SCOOP support of mympirun, modelled in Dafny

This project models the SCOOP integration of `vsc-mympirun`. There are two sides: the launcher, which works out where workers run and renders each worker's command line, and the worker start-up code, which each worker runs before the user's program takes over.

- `myscoop.dfy` (module `MyScoop`) covers the launcher side:
  - `MyHost` renders the worker command: the `export NAME='VALUE' &&` statements for the allow-listed environment variables, the `module load SCOOP &&` prefix, the bootstrap invocation from a copy of the worker with its nice level cleared, and the `--processcontrol`/`--nice`/`--affinity`/`--freeorigin` flags.
  - `MyScoopApp._addWorker_args` carves the free-origin worker out of its host: every worker already recorded on that host is rewritten with one worker fewer sharing the host.
  - `MYSCOOP` fills in the broker, size, hosts and info broker defaults. It resolves the executable to a worker module, and groups the host list run by run for SCOOP, duplicating the first host in free-origin mode.
- `bootstrap.dfy` (module `ScoopBootstrap`) covers `MyBootstrap`:
  - The options it declares on top of SCOOP's bootstrap, and their defaults.
  - The four steps it runs after parsing: free-origin flag, nice level, CPU affinity, worker environment.
  - It also proves that what the launcher renders is read back by the bootstrap, down to the controller the bootstrap calls.
- `bootstrap_main.dfy` (module `BootstrapMain`) covers the standalone start-up script `__main__.py`:
  - Its parser defaults.
  - The three best-effort resource steps.
  - The SCOOP constants it publishes, the `sys.path` and `sys.argv` updates and the process-group echo.
  - The module name derived from the script path, the import failure report, and the copy of the module's public names into the globals.
  - The exit status of the `__main__` block.
  - The process is a `WorkerProcess` object. Its methods are proved against functions on a `ProcessState` value.
- `strings.dfy` and `common.dfy` hold the string operations the code relies on (`str(int)`, `int(str)`, `split`, `join`, `endswith`, `rsplit('.', 1)[0]`, `[:-3]`) and the shared `Option`, `Result` and argument-declaration types.

Superclass methods (SCOOP's `Host`, `ScoopApp`, `Bootstrap`) are not part of this model. The values they return are parameters of the model: the base option list, the base bootstrap command, SCOOP's own `args`/`kwargs`, and the parsed arguments. Other outside answers are also inputs:
- The environment.
- The set of importable modules and their files.
- The controller lookups `what_priority` and `what_affinity`.
- Whether each system call fails.
- The process group id.

Three points of the code that the model follows closely:
- **Exit status on import failure.** `main` calls `sys.exit(-1)` when the user's script cannot be imported (__main__.py:164). The bare `except:` around `main` (__main__.py:209-212) catches that `SystemExit` too, so the script ends with status 0 (see Findings).
- **Capability lookup.** `set_nice` and `set_affinity` call the first controller the lookup returns, `control[0]` (bootstrap.py:105 and 123), however many it returns. The model does the same. Nothing around these calls catches an exception, so a controller call that raises ends `parse` (bootstrap.py:76-83), and the steps after it do not run.
- **Default broker.** `scoop_prepare` sets an unset broker from the local interface address (myscoop.py:319-322). A second default, the first unique node (myscoop.py:329-331), applies only when that address is None. The model types the interface address as a string, so it assumes the address is never None, and it leaves out the second default.

## Model

| member | source | states |
|---|---|---|
| Strings.IntRoundTrip | lib/vsc/mympirun/scoop/myscoop.py:121-123 | `str(n)` of any integer reads back as `n`, so the `--nice N` the launcher renders is the nice level the worker parses |
| Strings.Split | lib/vsc/mympirun/scoop/bootstrap.py:113 | `split(':')` gives at least one field, and no field contains the separator |
| Strings.SplitJoin | lib/vsc/mympirun/scoop/bootstrap.py:113 | splitting the `:`-join of separator-free fields gives exactly those fields back |
| Strings.JoinSplit | lib/vsc/mympirun/scoop/bootstrap.py:113 | re-joining the fields of `split(':')` with `:` gives the original string |
| Strings.StripLastExtension | lib/vsc/mympirun/scoop/myscoop.py:292 | `rsplit('.', 1)[0]` is a prefix that stops just before the last `.`; without a `.` it is the whole name |
| Strings.DropLastThree | lib/vsc/mympirun/scoop/__main__.py:155 | `[:-3]` removes exactly the last three characters, or leaves the empty string for shorter names |
| MyScoop.PresentVariables | lib/vsc/mympirun/scoop/myscoop.py:91 | the selected pairs are exactly the allow-listed names set in the environment, each with its environment value |
| MyScoop.PresentVariablesAppend | lib/vsc/mympirun/scoop/myscoop.py:91 | the selection keeps allow-list order: selecting from `a + b` is selecting from `a` and then from `b` |
| MyScoop.ExportLines | lib/vsc/mympirun/scoop/myscoop.py:88-93 | each present variable gives `export NAME='VALUE'` at an even position followed by `&&`, so the output has 2 × (number of present names) elements |
| MyScoop.MyHost.WorkerCommandEnvironmentSetVariables | lib/vsc/mympirun/scoop/myscoop.py:86-95 | the loop produces exactly the export statements of the present variables, in allow-list order, each followed by `&&` |
| MyScoop.MyHost.WorkerCommandEnvironment | lib/vsc/mympirun/scoop/myscoop.py:78-84 | the exports come first and SCOOP's environment command follows them unchanged |
| MyScoop.MyHost.WorkerCommandEnvironmentLoadModules | lib/vsc/mympirun/scoop/myscoop.py:97-108 | the command is `module load SCOOP &&` |
| MyScoop.ClearNice | lib/vsc/mympirun/scoop/myscoop.py:111 | the copy has no nice level and agrees with the worker in every other field |
| MyScoop.WorkerCommandBootstrap | lib/vsc/mympirun/scoop/myscoop.py:110-113 | SCOOP's bootstrap command is rendered from the worker with its nice level cleared, which is the worker itself when it has none |
| MyScoop.BootstrapIgnoresNice | lib/vsc/mympirun/scoop/myscoop.py:110-113 | two workers that differ only in nice level get the same bootstrap command |
| MyScoop.FormatAffinity | lib/vsc/mympirun/scoop/myscoop.py:126-127 | the affinity value is the algorithm, the host's worker count and the worker's index, joined with `:` |
| MyScoop.ProcessControlOptions | lib/vsc/mympirun/scoop/myscoop.py:117-132 | no flags without a process-control mode. With one: `--processcontrol MODE`, then `--nice N` when a nice level is set, then `--affinity VALUE` when an affinity is set |
| MyScoop.FreeOriginOption | lib/vsc/mympirun/scoop/myscoop.py:135-137 | `--freeorigin` is added exactly for a worker of size one in free-origin mode, and nothing else is |
| MyScoop.ExtraOptions | lib/vsc/mympirun/scoop/myscoop.py:115-139 | the process-control flags come first, and `--freeorigin`, when added, comes last |
| MyScoop.MyHost.WorkerCommandOptions | lib/vsc/mympirun/scoop/myscoop.py:115-139 | SCOOP's options stay a prefix. Then come `--processcontrol MODE`, `--nice N` and `--affinity ALGO:TOTAL:IDX`, each only when a mode is set. `--freeorigin` comes last, exactly when size is 1 and free-origin is on. Without a mode, a nice level or affinity adds no flag and logs its error |
| MyScoop.CarveOutOrigin | lib/vsc/mympirun/scoop/myscoop.py:172-180 | each recorded record keeps its position and has its host's worker count lowered by one and free-origin set, nothing else changed; fails exactly when some record has no affinity |
| MyScoop.MyScoopApp.AddWorkerArgs | lib/vsc/mympirun/scoop/myscoop.py:153-185 | outside the origin case the worker gets free-origin off and the worker info plus algorithm as affinity, and no host changes. For the free-origin origin it gets free-origin on, no affinity, and the last host's records are carved out. Mode and variables always come from the app; the error paths are an empty host list and a record without affinity |
| MyScoop.MyScoopApp.constructor | lib/vsc/mympirun/scoop/myscoop.py:145-151 | the four custom options are kept on the application |
| MyScoop.GroupHosts | lib/vsc/mympirun/scoop/myscoop.py:355 | there are no groups exactly when there are no hosts, and the first group names the first host |
| MyScoop.GroupHostsExpands | lib/vsc/mympirun/scoop/myscoop.py:355 | expanding the `(name, count)` pairs reproduces the host list |
| MyScoop.GroupHostsWellGrouped | lib/vsc/mympirun/scoop/myscoop.py:355 | every count is at least 1 and adjacent groups name different hosts |
| MyScoop.GroupHostsTotal | lib/vsc/mympirun/scoop/myscoop.py:355 | the counts add up to the number of host entries |
| MyScoop.GroupHostsUnique | lib/vsc/mympirun/scoop/myscoop.py:355 | any well-formed grouping that expands to the host list is the one `groupby` gives |
| MyScoop.DuplicateFirstHost | lib/vsc/mympirun/scoop/myscoop.py:344-348 | inserting the first host at index 0 adds one to the first group's count and leaves the other groups alone |
| MyScoop.Myscoop.ScoopRun | lib/vsc/mympirun/scoop/myscoop.py:343-355 | without free-origin, hosts and size are unchanged. With it, the first host is duplicated and the size grows by one, and an empty host list fails. The result is the grouping of the final host list and the final size |
| MyScoop.Myscoop.ScoopPrepare | lib/vsc/mympirun/scoop/myscoop.py:316-334 | only unset values are filled in: the broker from the local interface (resolved only if not known yet), the size as `mpitotalppn × nruniquenodes`, the hosts as `mpinodes`, the info broker as the broker. Given values stay, and afterwards all four are set |
| MyScoop.GetModule | lib/vsc/mympirun/scoop/myscoop.py:280-298 | None exactly when the import fails. An error exactly when the module imports without a file. Otherwise the file without its last extension, a prefix of the file name |
| MyScoop.LocateModuleFile | lib/vsc/mympirun/scoop/myscoop.py:280-309 | the module name is tried first, then the same name in `vsc.mympirun.scoop.worker`; the result is the found file without its last extension; a module without a file, or neither name importable, is an error |
| MyScoop.Myscoop.ScoopMakeExecutable | lib/vsc/mympirun/scoop/myscoop.py:278-314 | a `.py` executable leaves executable and arguments unchanged; otherwise the old executable is put before the arguments and the executable becomes the located module file plus `.py`, or the lookup's error is raised |
| ScoopBootstrap.ParseAffinity | lib/vsc/mympirun/scoop/bootstrap.py:113-114 | the algorithm and parameters contain no `:` and, joined back with `:`, give the affinity string |
| ScoopBootstrap.AffinityRoundTrip | lib/vsc/mympirun/scoop/bootstrap.py:113-114 | parsing the `ALGO:TOTAL:IDX` the launcher renders (myscoop.py:127) gives the algorithm back, plus parameters that read as the host's worker count and the worker's index |
| ScoopBootstrap.OptionsRoundTrip | lib/vsc/mympirun/scoop/bootstrap.py:49-74 | reading the options the launcher renders (myscoop.py:115-139) gives the worker's mode, and its nice level and affinity only when a mode is set, plus free-origin for a size-one free-origin worker; every other option keeps its default |
| ScoopBootstrap.LauncherAffinityReachesController | lib/vsc/mympirun/scoop/bootstrap.py:108-124 | for a rendered mode and affinity, the first controller for that mode and algorithm runs with exactly the host's worker count and the worker's index. `set_affinity` raises exactly when that call raises |
| ScoopBootstrap.LauncherNiceReachesController | lib/vsc/mympirun/scoop/bootstrap.py:94-106 | for a rendered mode and nice level, the first priority controller sets exactly that level; with no controller only an error is logged. `set_nice` raises exactly when the controller's call raises |
| ScoopBootstrap.ReadOptions | lib/vsc/mympirun/scoop/bootstrap.py:49-74 | no tokens leave the parsed values as they are. `--freeorigin` is `store_true`, so once set it stays set. An option whose flag does not occur among the tokens keeps its value, and a newly read nice level comes from a `--nice` token |
| ScoopBootstrap.NiceEffectsCases | lib/vsc/mympirun/scoop/bootstrap.py:94-106 | no nice level: nothing. No controller for the mode: a single logged error. Otherwise exactly one call setting that level through the first controller |
| ScoopBootstrap.AffinityEffectsCases | lib/vsc/mympirun/scoop/bootstrap.py:108-124 | no affinity: nothing. Otherwise the first `:` field names the algorithm. With no controller for mode and algorithm a single error is logged; otherwise the first controller runs the algorithm on the remaining fields, in order |
| ScoopBootstrap.ParseEffects | lib/vsc/mympirun/scoop/bootstrap.py:76-83 | the free-origin flag is always recorded first. When no controller call raises, the effects are those of the four steps in source order |
| ScoopBootstrap.ParseRecordsOriginUnlessRaised | lib/vsc/mympirun/scoop/bootstrap.py:76-83 | the worker's origin flag is recorded exactly when neither `set_nice` nor `set_affinity` raises: a raising controller call skips `set_environment` |
| ScoopBootstrap.ExtensionDefaults | lib/vsc/mympirun/scoop/bootstrap.py:49-74 | `--freeorigin` defaults to false, `--processcontrol` and `--affinity` to None, and `--nice` to 0; `--nice` is declared only before SCOOP 0.7 |
| ScoopBootstrap.MyBootstrap.MakeParser | lib/vsc/mympirun/scoop/bootstrap.py:46-74 | the four declarations are appended after SCOOP's own, in source order |
| ScoopBootstrap.MyBootstrap.Parse | lib/vsc/mympirun/scoop/bootstrap.py:76-83 | after SCOOP's parse, `set_freeorigin`, `set_nice`, `set_affinity` and `set_environment` run in that order, up to the first controller call that raises; `raised` says whether one did, and the effects are `ParseEffects` |
| ScoopBootstrap.MyBootstrap.SetFreeorigin | lib/vsc/mympirun/scoop/bootstrap.py:85-92 | `worker_freeorigin` is recorded as 1 when the flag is set and 0 otherwise |
| ScoopBootstrap.MyBootstrap.SetNice | lib/vsc/mympirun/scoop/bootstrap.py:94-106 | the effects appended are `NiceEffects`, and `raised` is set exactly when the controller's `set_priority` call raises |
| ScoopBootstrap.MyBootstrap.SetAffinity | lib/vsc/mympirun/scoop/bootstrap.py:108-124 | the effects appended are `AffinityEffects`, and `raised` is set exactly when the controller's `algorithm` call raises |
| ScoopBootstrap.MyBootstrap.SetEnvironment | lib/vsc/mympirun/scoop/bootstrap.py:126-132 | `worker_name` is the worker name before SCOOP 0.7 and the external broker host name from 0.7 on; `worker_origin` is 1 or 0 |
| BootstrapMain.MainParserDefaults | lib/vsc/mympirun/scoop/__main__.py:39-85 | every option is declared, with the default of its `add_argument` call |
| BootstrapMain.MainParserDefaultValues | lib/vsc/mympirun/scoop/__main__.py:39-85 | the defaults written out: worker "worker0", broker "broker", both addresses "", size 1, nice 0, no start directory or affinity, an empty argument list, every flag false, and no default for the executable |
| BootstrapMain.BaseName | lib/vsc/mympirun/scoop/__main__.py:155 | `os.path.basename` is a suffix with no `/`, preceded by a `/` unless it is the whole path |
| BootstrapMain.DirName | lib/vsc/mympirun/scoop/__main__.py:135 | `os.path.dirname` is a prefix of the path that ends before its last component. It is empty exactly when the path has no `/`. Otherwise it drops the run of slashes before the last component, unless it is made of slashes only, in which case it keeps them |
| BootstrapMain.DirNameRoot | lib/vsc/mympirun/scoop/__main__.py:135 | a name directly under the root has directory `/` and is its own base name |
| BootstrapMain.PathJoin | lib/vsc/mympirun/scoop/__main__.py:134-136 | `os.path.join` returns an absolute second part as it is; otherwise the result starts with the first part and ends with the second |
| BootstrapMain.PathWithoutDirectory | lib/vsc/mympirun/scoop/__main__.py:134-136 | a path without `/` has an empty directory and is its own base name |
| BootstrapMain.DirNameBaseName | lib/vsc/mympirun/scoop/__main__.py:134-136 | `dirname` and `basename` take `d/n` apart into `d` and `n` |
| BootstrapMain.PathJoinRelative | lib/vsc/mympirun/scoop/__main__.py:134-136 | joining a relative part onto a directory without a trailing slash inserts exactly one `/` |
| BootstrapMain.ModuleName | lib/vsc/mympirun/scoop/__main__.py:155 | the imported module name contains no `/` |
| BootstrapMain.ModuleNameOfScript | lib/vsc/mympirun/scoop/__main__.py:155 | a script `DIR/NAME.py` is imported as module `NAME` |
| BootstrapMain.AppendIfAbsent | lib/vsc/mympirun/scoop/__main__.py:137-138 | the entry is present afterwards, existing entries are kept in place, at most one entry is added, and nothing changes when it was already there |
| BootstrapMain.AppendIfAbsentIdempotent | lib/vsc/mympirun/scoop/__main__.py:137-138 | repeating the `sys.path` step changes nothing |
| BootstrapMain.FirstMissing | lib/vsc/mympirun/scoop/__main__.py:169-170 | the loop gets past exactly the names before the first one the module lacks |
| BootstrapMain.MergeAllBindings | lib/vsc/mympirun/scoop/__main__.py:169-170 | merging binds exactly the given names to the module's values and keeps every other global |
| BootstrapMain.MergeExports | lib/vsc/mympirun/scoop/__main__.py:165-170 | the loop reports a missing name exactly when one lacks an attribute, and merges the names up to it |
| BootstrapMain.AfterNice | lib/vsc/mympirun/scoop/__main__.py:93-97 | the nice step touches none of path, argv, globals, streams or the started program |
| BootstrapMain.AfterAffinity | lib/vsc/mympirun/scoop/__main__.py:99-106 | the affinity step touches none of path, argv, globals, streams or the started program |
| BootstrapMain.AfterChdir | lib/vsc/mympirun/scoop/__main__.py:108-112 | the chdir step touches none of path, argv, globals, streams or the started program |
| BootstrapMain.AfterResources | lib/vsc/mympirun/scoop/__main__.py:93-112 | the three resource steps together touch none of path, argv, globals, streams or the started program |
| BootstrapMain.ResourceOptionsIndependent | lib/vsc/mympirun/scoop/__main__.py:93-112 | priority, CPU affinity and directory each change exactly when that option is given and its own call succeeds, whatever the other two do |
| BootstrapMain.ResourceFailuresLogged | lib/vsc/mympirun/scoop/__main__.py:93-112 | one message is logged per failed resource call, in call order, and nothing else |
| BootstrapMain.Setup | lib/vsc/mympirun/scoop/__main__.py:93-150 | before the import, the SCOOP constants are published and the script's directory is appended to `sys.path` if absent. `sys.argv` becomes its first element followed by the user's arguments. Globals, stderr and the started program are untouched |
| BootstrapMain.MainPathAndArguments | lib/vsc/mympirun/scoop/__main__.py:115-145 | after `main`, the script's directory is on `sys.path`, existing entries are unchanged, `sys.argv` is the program name followed by the user's arguments, and the constants are published |
| BootstrapMain.EchoGroupBeforeImport | lib/vsc/mympirun/scoop/__main__.py:147-150 | with `echoGroup` the process group id and a newline go to stdout whatever the import does; without it stdout is untouched |
| BootstrapMain.AfterMerge | lib/vsc/mympirun/scoop/__main__.py:165-182 | the user program starts exactly when every exported name is copied; path, argv and streams are untouched |
| BootstrapMain.MergeExportsNames | lib/vsc/mympirun/scoop/__main__.py:165-182 | when every name in `__all__` (or in `dir()`) resolves, each holds the module's value afterwards, every other global keeps its own, and the program is started |
| BootstrapMain.AfterImport | lib/vsc/mympirun/scoop/__main__.py:152-182 | the program starts only on a normal return. On an import failure the globals are untouched and stderr gets `No module named NAME` followed by the last `sys.path` entry |
| BootstrapMain.ImportFailureReport | lib/vsc/mympirun/scoop/__main__.py:154-164 | an unimportable script makes `main` exit with -1, after writing the module name and the script's own directory to stderr. No global is merged and nothing is started |
| BootstrapMain.MainReturnsIffStarted | lib/vsc/mympirun/scoop/__main__.py:152-193 | `main` returns normally exactly when the module imports and every exported name resolves, and only then is the user program started, profiled into a file named after the worker when asked |
| BootstrapMain.MainOutcome | lib/vsc/mympirun/scoop/__main__.py:152-193 | `main` raises `ValueError` exactly when the module name is empty. It exits exactly when the module is not importable, and then with -1. It raises `AttributeError` exactly when the module imports but one of its exported names is missing |
| BootstrapMain.AfterMain | lib/vsc/mympirun/scoop/__main__.py:87-193 | after `main`, the script's directory is on `sys.path`, the SCOOP constants are published and the SCOOP environment is untouched. The user program is started exactly on a normal return |
| BootstrapMain.BareExceptHidesExit | lib/vsc/mympirun/scoop/__main__.py:209-212 | as written, the bare `except:` catches every outcome of `main`, `SystemExit` included, so the script's status is 0 whatever `main` did |
| BootstrapMain.ExceptExceptionReportsExit | lib/vsc/mympirun/scoop/__main__.py:164 | with `except Exception:` the status is non-zero exactly when `main` ended with a non-zero `sys.exit` |
| BootstrapMain.AfterScript | lib/vsc/mympirun/scoop/__main__.py:198-212 | the block records the worker name and origin flag, runs `main`, and logs "main bootstrap failed attempt" exactly when the handler catches `main`'s outcome. The program is started exactly on a normal return |
| BootstrapMain.ImportFailureExitStatusLost | lib/vsc/mympirun/scoop/__main__.py:209-212 | an unimportable script ends with status 0 under the bare `except:` as written, and with -1 under `except Exception:` |
| BootstrapMain.ExitStatusReportsImportFailure | lib/vsc/mympirun/scoop/__main__.py:154-164 | under `except Exception:` the status is non-zero exactly when the script cannot be imported |
| BootstrapMain.WorkerProcess.SetNice | lib/vsc/mympirun/scoop/__main__.py:93-97 | the process after the nice step is `AfterNice` of the process before |
| BootstrapMain.WorkerProcess.SetAffinity | lib/vsc/mympirun/scoop/__main__.py:99-106 | the process after the affinity step is `AfterAffinity` of the process before |
| BootstrapMain.WorkerProcess.ChangeDirectory | lib/vsc/mympirun/scoop/__main__.py:108-112 | the process after the chdir step is `AfterChdir` of the process before |
| BootstrapMain.WorkerProcess.ApplyResourceOptions | lib/vsc/mympirun/scoop/__main__.py:93-112 | the three steps in order give `AfterResources` |
| BootstrapMain.WorkerProcess.PrepareWorker | lib/vsc/mympirun/scoop/__main__.py:93-150 | the process after everything before the import is `Setup` of the process before |
| BootstrapMain.WorkerProcess.CopyExports | lib/vsc/mympirun/scoop/__main__.py:165-182 | the process after the merge is `AfterMerge`; the outcome is an `AttributeError` exactly when a name is missing |
| BootstrapMain.WorkerProcess.ImportUserModule | lib/vsc/mympirun/scoop/__main__.py:152-182 | the process after the import is `AfterImport`: `ValueError` for an empty module name, exit -1 for a missing module, otherwise the merge |
| BootstrapMain.WorkerProcess.StartWorker | lib/vsc/mympirun/scoop/__main__.py:87-196 | `main(args)` leaves the process in `AfterMain` and ends as `MainOutcome` says |
| BootstrapMain.WorkerProcess.RunAsScript | lib/vsc/mympirun/scoop/__main__.py:198-212 | the process after the block is `AfterScript`, the outcome is `MainOutcome`, and the exit status is `ExitStatus` for the given handler: the bare `except:` as written, or `except Exception:` |

## Left out

- Launching SCOOP itself: building the `ScoopApp`, its `run()` and `close()`, and the version-specific extra arguments (myscoop.py:350-396). This is process spawning over the network. As written, line 354 holds a stray backtick and line 389 passes the dictionary with `*`, which would hand over its keys only; neither is modelled.
- The Python and SCOOP version checks and the module-level import guards (myscoop.py:43-57, __main__.py:34-37). The SCOOP 0.7 switch inside `makeParser` and `set_environment` is a parameter of the model.
- SCOOP's own `Host`, `ScoopApp` and `Bootstrap` methods that the extensions call through `super()`. Their results are inputs.
- MPI discovery (`mpdboot_set_localhost_interface`, `get_localhosts`, `get_pass_variables`, the `utils.localHostnames` update). The resolved interface and the MPI node values are inputs.
- `MYSCOOP.__init__` defaults (myscoop.py:217-265): the launcher is constructed with its option values directly.
- `MyScoop.Myscoop.ScoopPrepare`: the second broker default (myscoop.py:329-331) is not modelled. The model types the local interface address as a string, so it assumes that address is never None, and then the first branch (myscoop.py:319-322) has already set the broker.
- `MyScoop.MyScoopApp.AddWorkerArgs`: the worker-info dictionary is reduced to the two keys the affinity string uses. The `copy()` aliasing of sibling records is not modelled: records are values.
- `MyScoop.FormatAffinity`: an algorithm of None, which Python would render as "None", is not modelled; the algorithm is a string.
- `MyScoop.Myscoop.ScoopRun`: it requires hosts and size to be set, which `scoop_prepare` guarantees before `scoop_run` is called. The insertion also updates `mpinodes` when the two lists are the same object; that aliasing is not modelled.
- Logging beyond the logged error messages: debug messages and exception tracebacks.
- The controllers themselves (`what_priority`, `what_affinity` and the objects they return), `set_scoop_env`, `setpriority`, `sched_setaffinity`, `cpu_set_t`, `os.chdir` and `os.getpgrp`. These are recorded as effects, with inputs saying whether each call fails or raises.
- Dynamic import (`__import__`, `sys.modules`, `runpy.run_path`, `futures._startup`, `cProfile`). A table of importable modules stands in for the import system. Starting the user program is recorded, not run.
- `BootstrapMain.AfterChdir`: the new working directory is the old one joined with the target. `..` and symbolic links are not resolved.
- `BootstrapMain.ModuleName`: a dotted module name, which Python would import as a package path, is treated as a plain name.
- `BootstrapMain.WorkerProcess.StartWorker`: `main(args=None)`, which parses `sys.argv` itself, is not modelled; the parsed arguments are given. Nor is the `NameError` for `_logger` when `main` is called without the script's `__main__` block.
- The argparse machinery: parsing of SCOOP's own options, `--help` and usage errors. Only the declared defaults, and the reading of the extension's own options, are stated.
- The `encode()` of the published constants: strings stay strings.

## Findings

| source | as written | input that shows it | evidently intended | confidence | as-written member | corrected member |
|---|---|---|---|---|---|---|
| lib/vsc/mympirun/scoop/__main__.py:209-212 | `main` ends with `sys.exit(-1)` when the user's script cannot be imported (line 164). The bare `except:` around `main(args)` also catches that `SystemExit`, logs "main bootstrap failed attempt", and the script exits with status 0 | an executable `missing.py` whose module `missing` is not importable | the worker exits with status -1 on an import failure, so the launcher can see it | not executed | BootstrapMain.BareExceptHidesExit (with `BootstrapMain.WorkerProcess.RunAsScript` for the `BareExcept` handler and the lemma `BootstrapMain.ImportFailureExitStatusLost`) | BootstrapMain.ExceptExceptionReportsExit (with `BootstrapMain.WorkerProcess.RunAsScript` for the `ExceptException` handler and the lemma `BootstrapMain.ExitStatusReportsImportFailure`) |
