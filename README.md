# A verified model of voodoo's GenoM supervisor

voodoo drives robotics components built on the GenoM middleware from Python.
This project models its core in Dafny:

- the `Genom` supervisor class and the free functions of
  `src/voodoo/middleware/genom.py`. These resolve `GENOM_PATH`, launch and
  call programs over `ssh`, run `killall`, and probe a component's
  readiness marker;
- the `enum` helper of `src/voodoo/util/__init__.py`, which builds a
  read-only name-to-index table;
- the enumeration tables and the `Viam` bracket of
  `src/voodoo/component/viam_component.py`;
- the `Nmbt` bracket of `src/voodoo/component/nmbt_component.py`;
- the two modules' own tests, which nest these brackets.

Modules, one file each:

- `Wrappers` holds `Option`, `Result` and `Outcome`. A raised exception is
  an `Err`/`Fail` value.
- `System` is the machine the supervisor drives. The class `Os` holds the
  environment map, the trace of requests made to the operating system
  (spawn, write to stdin, signal) and a clock that `time.sleep` advances.
  An `Oracle` answers what the supervisor cannot see: each process's exit
  status, the return code it reports right after it is spawned, the files
  that exist at each tick, and the host name. A process's pid is the
  position of its spawn in the trace.
- `GenomShell` holds the free functions of `genom.py` and the polling loop
  the component brackets share.
- `Genom` holds the supervisor class. Each lifecycle method
  (`start`, `startComponent`, `stopComponent`, `terminate`) is proved equal
  to a pure step function of the old fields and the machine. The lemmas
  about those step functions state what the source does. The class also
  keeps an invariant: every registry entry is a process the supervisor
  launched with that component's command line, and no two entries share a
  process.
- `Util` holds `enum` and `M_add_class_attribs`.
- `ViamComponent` holds the enumeration tables, the `Viam` class and its
  test.
- `NmbtComponent` holds the `Nmbt` class and its test.

Behaviour of the code that the model keeps:

- `start` is not idempotent (genom.py:187-202). An already started host
  only gets a warning, and everything runs again, including a new
  multiplexer (`StartTwice`).
- `startComponent` does not check that the runtime was started
  (genom.py:204-221, `StartComponentIgnoresStarted`).
- `stopComponent` never removes the registry entry (genom.py:238-247). It
  only writes the wait status into it.
- `terminate` resets no field (genom.py:257-266).
- `killall` ignores its host (genom.py:93) and always runs on the local
  host; `start` also passes its arguments swapped (genom.py:190).
- `killmodule` (genom.py:176) and the two `sshLaunch` calls of `start`
  (genom.py:192 and :197) pass `host` in the output-file slot, so these
  commands run on the local host with their output in a file named after
  `host`. The component itself is launched on `host` (genom.py:218).
- `terminate` spawns `h2 info` and `h2 end` directly, without `ssh`
  (genom.py:262-264).
- `stopComponent` kills `host + "/" + component` (genom.py:234).
  `killmodule` strips that to the part after the last `/`, which is the
  same as stripping `component` alone (`BasenameAfterSlash`); the lookup
  uses the same key that `startComponent` inserts
  (`StartThenStopFindsEntry`).
- There are no timeouts: the polling loops wait until the marker appears
  (viam_component.py:166-168, nmbt_component.py:29-31).

The pure functions `GenomPathSpec`, `SshLaunchSpec`, `SshCallSpec`,
`KillallSpec`, `KillmoduleSpec`, `StartStep`, `StartComponentStep`,
`StopComponentStep` and `TerminateStep` are the reference definitions of the
operations. Each method of the same name is proved to produce exactly their
result and new state, and the lemmas are stated about them.

## Model

| member | source | states |
|---|---|---|
| System.WaitStatus | src/voodoo/middleware/genom.py:242-243 | `wait()` returns the recorded return code when there is one, otherwise the process's exit status |
| System.Os.Popen | src/voodoo/middleware/genom.py:43-46 | spawning appends one spawn request to the trace; the handle's pid is its position and its return code is the one the process reports right away |
| System.Os.Communicate | src/voodoo/middleware/genom.py:193 | writing to stdin appends one write request, and the handle then records the exit status |
| System.Os.Wait | src/voodoo/middleware/genom.py:194 | waiting returns the exit status, records it in the handle and spawns nothing |
| System.Os.SendSignal | src/voodoo/middleware/genom.py:259-260 | `terminate()`/`kill()` append one signal request for the handle's pid |
| System.Os.GetEnv | src/voodoo/middleware/genom.py:25 | `os.getenv` is `None` exactly when the variable is unset |
| System.Os.PutEnv | src/voodoo/middleware/genom.py:29 | assigning `os.environ[name]` changes that variable only |
| System.Os.Access | src/voodoo/middleware/genom.py:99-100 | the existence check answers for the current tick |
| System.Os.GetHostname | src/voodoo/middleware/genom.py:97-98 | the host name comes from the machine |
| System.Os.Sleep | src/voodoo/component/viam_component.py:168 | sleeping advances the clock by one tick |
| GenomShell.GenomPathSpec | src/voodoo/middleware/genom.py:25-31 | resolving the GenoM path spawns and signals nothing |
| GenomShell.GenomPathResolves | src/voodoo/middleware/genom.py:25-31 | it succeeds iff GENOM_PATH is set and non-empty or PATH is set; it returns GENOM_PATH when that is set and non-empty, otherwise PATH, which it copies into GENOM_PATH; a failure changes nothing; no other variable changes |
| GenomShell.GenomPathStable | src/voodoo/middleware/genom.py:25-31 | after one successful resolution, a later call returns the same value and changes nothing, whatever was spawned in between |
| GenomShell.GetGenomPath | src/voodoo/middleware/genom.py:12-31 | the method's new environment and result are those of the resolution specification |
| GenomShell.ShellLine | src/voodoo/middleware/genom.py:71-72 | the remote shell line `sh -c 'PATH='<path>:$PATH' <cmd>'`; `ShellLineCommand` states that the command can be read back from it |
| GenomShell.SshArgv | src/voodoo/middleware/genom.py:70-72 | the argument vector `ssh -X <host> <shell line>`; `SshArgvInjective` states that it determines command and host |
| GenomShell.ShellLineCommand | src/voodoo/middleware/genom.py:70-73 | the remote command can be read back from the shell line, between the fixed prefix and the closing quote |
| GenomShell.SshArgvInjective | src/voodoo/middleware/genom.py:81-84 | under one GenoM path, different commands or hosts never give the same `ssh` argument vector |
| GenomShell.Launch | src/voodoo/middleware/genom.py:33-46 | `launch` spawns exactly `prog` with the given output and returns its handle |
| GenomShell.Call | src/voodoo/middleware/genom.py:48-61 | `call` spawns exactly `prog` and returns that process's exit status |
| GenomShell.SshLaunchSpec | src/voodoo/middleware/genom.py:64-73 | reference definition of `sshLaunch`: resolve the GenoM path, then launch the `ssh` vector; its contract is stated by `SshLaunchShape` and `SshLaunchResolved` |
| GenomShell.SshCallSpec | src/voodoo/middleware/genom.py:75-84 | reference definition of `sshCall`: the same launch, returning the process's exit status; its contract is stated by `SshCallResolved` |
| GenomShell.KillallSpec | src/voodoo/middleware/genom.py:87-93 | reference definition of `killall`: `sshCall("killall " + prog)` on the local host with piped output, whatever `host` is; the `Killall` method is proved against it |
| GenomShell.SshLaunchShape | src/voodoo/middleware/genom.py:64-73 | `sshLaunch` either raises, with nothing changed, exactly when the GenoM path cannot be resolved, or spawns exactly one `ssh -X host "sh -c 'PATH='<path>:$PATH' cmd'"` and returns its handle |
| GenomShell.SshLaunchResolved | src/voodoo/middleware/genom.py:64-73 | once the path resolves to `p`, `sshLaunch`'s new trace, environment and handle are given outright |
| GenomShell.SshCallResolved | src/voodoo/middleware/genom.py:75-84 | once the path resolves, `sshCall` spawns the same command line and returns that process's exit status |
| GenomShell.SshLaunch | src/voodoo/middleware/genom.py:64-73 | the method's new machine state and result are those of the `sshLaunch` specification |
| GenomShell.SshCall | src/voodoo/middleware/genom.py:75-84 | the method's new machine state and result are those of the `sshCall` specification |
| GenomShell.Killall | src/voodoo/middleware/genom.py:87-93 | `killall(prog, host)` sends `killall prog` to the local host with output piped back; `host` plays no part |
| GenomShell.MarkerPath | src/voodoo/middleware/genom.py:99-100 | the readiness marker `HOME + "/." + component + ".pid-" + hostname`; `MarkerPathInjective` states that it determines the component |
| GenomShell.MarkerPathInjective | src/voodoo/middleware/genom.py:96-100 | on one host and for one user, two components never share a readiness marker |
| GenomShell.ModuleReady | src/voodoo/middleware/genom.py:96-100 | `module_ready(c)` raises when HOME is unset, and is otherwise true exactly when `HOME + "/." + c + ".pid-" + hostname` exists now |
| GenomShell.MarkerStaysEventually | src/voodoo/component/nmbt_component.py:29-31 | a marker that stays once written is found by a poll that starts at any later tick |
| GenomShell.AwaitReady | src/voodoo/component/viam_component.py:166-168 | the poll raises at once when HOME is unset; otherwise it returns at the first tick at which the marker exists, having seen no marker at any earlier tick since it began |
| Genom.RegistryKey | src/voodoo/middleware/genom.py:221 | the registry key `host + "/" + component`, which `stopComponent` also builds at genom.py:234-238; `StartThenStopFindsEntry` states the two agree |
| Genom.LogPath | src/voodoo/middleware/genom.py:217 | the component's log file `/tmp/<component>.log`; `LogPathInjective` states that it determines the component |
| Genom.Basename | src/voodoo/middleware/genom.py:172-174 | the last element of `component.rsplit('/', 1)`; `BasenameTail`, `BasenameIdempotent` and `BasenameAfterSlash` state its contract |
| Genom.KillmoduleSpec | src/voodoo/middleware/genom.py:163-176 | reference definition of `killmodule`: `sshCall("killmodule " + basename)` on the local host with output in a file named after `host`; the `Killmodule` method is proved against it |
| Genom.StartStep | src/voodoo/middleware/genom.py:178-202 | reference definition of `start` on the supervisor's fields and the machine; `StartTrace`, `StartShape` and `StartKeepsRegistered` state its contract |
| Genom.StartComponentStep | src/voodoo/middleware/genom.py:204-221 | reference definition of `startComponent`; `StartComponentTrace`, `StartComponentShape` and `StartComponentKeepsRegistered` state its contract |
| Genom.StopComponentStep | src/voodoo/middleware/genom.py:224-247 | reference definition of `stopComponent`; `StopComponentTrace`, `StopComponentShape` and `StopComponentKeepsRegistered` state its contract |
| Genom.TerminateStep | src/voodoo/middleware/genom.py:249-266 | reference definition of `terminate`; `TerminateTrace`, `TerminateShape` and `TerminateKeepsRegistered` state its contract |
| Genom.LogPathInjective | src/voodoo/middleware/genom.py:217 | two components never share a log file |
| Genom.BasenameTail | src/voodoo/middleware/genom.py:172-174 | the stripped name holds no `/`, is a suffix of the input, is the whole input when that holds no `/`, and otherwise follows the last `/` |
| Genom.BasenameIdempotent | src/voodoo/middleware/genom.py:172-174 | stripping twice gives the same name as stripping once |
| Genom.BasenameAfterSlash | src/voodoo/middleware/genom.py:234 | stripping `host + "/" + component` gives the same name as stripping `component` |
| Genom.Genom.constructor | src/voodoo/middleware/genom.py:134-143 | a new supervisor has nothing started, no multiplexer and an empty registry, and its invariant holds |
| Genom.Genom.Killmodule | src/voodoo/middleware/genom.py:163-176 | `killmodule` sends `killmodule <basename>` to the local host with its output in a file named after `host` |
| Genom.Genom.Start | src/voodoo/middleware/genom.py:178-202 | the new fields and machine are those of the `start` step; the registry invariant is kept |
| Genom.Genom.StartComponent | src/voodoo/middleware/genom.py:204-221 | the new fields and machine are those of the `startComponent` step; the registry invariant is kept |
| Genom.Genom.StopComponent | src/voodoo/middleware/genom.py:224-247 | the new fields and machine are those of the `stopComponent` step; the registry invariant is kept |
| Genom.Genom.Terminate | src/voodoo/middleware/genom.py:249-266 | the new fields and machine are those of the `terminate` step; the registry invariant is kept |
| Genom.Genom.Enter | src/voodoo/middleware/genom.py:145-147 | `__enter__` starts on the local host and returns the supervisor unless `start` raised |
| Genom.Genom.Exit | src/voodoo/middleware/genom.py:149-151 | `__exit__` terminates and returns a truthy value unless `terminate` raised |
| Genom.SshLaunchExtends | src/voodoo/middleware/genom.py:64-73 | `sshLaunch` only appends to the trace |
| Genom.StartShape | src/voodoo/middleware/genom.py:178-202 | `start` only appends to the trace, leaves the registry alone, and holds either its old multiplexer or a process it just spawned |
| Genom.StartComponentShape | src/voodoo/middleware/genom.py:204-221 | `startComponent` only appends to the trace, leaves `started` and `tclserv` alone, and on success maps the key to a process it just launched with the component's command line and log file |
| Genom.StopComponentShape | src/voodoo/middleware/genom.py:224-247 | `stopComponent` only appends to the trace, keeps every key and every entry's process, and changes no entry but its own |
| Genom.TerminateShape | src/voodoo/middleware/genom.py:249-266 | `terminate` changes no field and only appends to the trace |
| Genom.KeptWhenExtended | src/voodoo/middleware/genom.py:221 | registry entries stay valid however much is appended to the trace |
| Genom.StartKeepsRegistered | src/voodoo/middleware/genom.py:197 | after `start`, the multiplexer is a spawned process that no registry entry shares |
| Genom.StartComponentKeepsRegistered | src/voodoo/middleware/genom.py:218-221 | after `startComponent`, every entry is still a distinct process launched for its key |
| Genom.StopComponentKeepsRegistered | src/voodoo/middleware/genom.py:238-242 | after `stopComponent`, every entry is still a distinct process launched for its key |
| Genom.TerminateKeepsRegistered | src/voodoo/middleware/genom.py:258-266 | after `terminate`, the registry invariant still holds |
| Genom.StartTrace | src/voodoo/middleware/genom.py:187-202 | the exact trace of `start`: `killall <host>` piped, `h2 init` with output in a file named after the host, `y\n` written to it, then `tclserv`. It raises before spawning when the path cannot be resolved. It raises after `h2 init` fails with no field changed. The new `tclserv` handle is kept even when its return code raises. `started[host]` is set only on success |
| Genom.StartPassHolds | src/voodoo/middleware/genom.py:197-202 | a `start` that succeeds holds a multiplexer handle and marks its host as started |
| Genom.StartNeverSignals | src/voodoo/middleware/genom.py:187-202 | `start` never signals a process, so a multiplexer it replaces keeps running |
| Genom.StartTwice | src/voodoo/middleware/genom.py:111-112 | a second `start` runs `killall` again and, when it succeeds, holds a different multiplexer process; the first is never sent a termination signal |
| Genom.StartComponentTrace | src/voodoo/middleware/genom.py:212-221 | the exact trace of `startComponent`: `killall <component>`, `killmodule <basename>` with its output in a file named after the host, then the component on `host` with output in `/tmp/<component>.log`. A set non-zero return code raises with no field changed. Otherwise the handle replaces the entry at `host + "/" + component` and nothing else changes |
| Genom.StartComponentIgnoresStarted | src/voodoo/middleware/genom.py:204-221 | `startComponent` does the same whatever `started` holds |
| Genom.StartComponentTwice | src/voodoo/middleware/genom.py:113-114 | starting a component twice leaves one entry for its key, holding the second process |
| Genom.StopComponentTrace | src/voodoo/middleware/genom.py:233-247 | the exact trace of `stopComponent`: `killmodule <basename>` with output in a file named "localhost". A non-zero status raises before the lookup, and a missing key raises after it. Term and kill are sent only when the recorded return code is set and non-zero. The wait status is written into the entry, which is never removed, and a non-zero status raises |
| Genom.StartThenStopFindsEntry | src/voodoo/middleware/genom.py:221-238 | a `stopComponent` after a successful `startComponent` of the same component and host finds its entry |
| Genom.StopNeverSignalsMultiplexer | src/voodoo/middleware/genom.py:238-241 | while the registry invariant holds, `stopComponent` sends neither term nor kill to the multiplexer process |
| Genom.TerminateTrace | src/voodoo/middleware/genom.py:257-266 | the exact trace of `terminate`: term and kill for the held multiplexer only, then `h2 info`, then `h2 end` only when `h2 info` does not return 3. Only a failing `h2 end` raises, and no field changes |
| Genom.TerminateTwice | src/voodoo/middleware/genom.py:117-118 | a second `terminate` finds the same fields and signals the same multiplexer again |
| Genom.StepsKeepEnvironment | src/voodoo/middleware/genom.py:178-266 | no lifecycle step writes an environment variable other than GENOM_PATH, and `terminate` writes none |
| Util.Assign | src/voodoo/util/__init__.py:1-4 | writing each `(index, name)` pair into the dictionary in order, the later write winning; `AssignEnumerate` states what it gives for an enumeration |
| Util.Table | src/voodoo/util/__init__.py:8-13 | the enum's attributes: each listed name mapped to its last position; `TableLastIndex` and `TableLast` state its contract |
| Util.Enumerate | src/voodoo/util/__init__.py:10 | `enumerate(names)` pairs each name with its position |
| Util.LastIndex | src/voodoo/util/__init__.py:3-4 | the last position of a listed name holds that name and no later position does |
| Util.AddClassAttribs | src/voodoo/util/__init__.py:1-6 | the loop leaves the dictionary that writing each pair in order gives |
| Util.AssignEnumerate | src/voodoo/util/__init__.py:1-10 | writing the enumerated names in order into an empty dictionary gives each listed name its last position, and nothing else |
| Util.EnumObject.constructor | src/voodoo/util/__init__.py:8-13 | `enum(names)` holds the table of last positions |
| Util.EnumObject.Get | src/voodoo/util/__init__.py:8-13 | reading an attribute gives its value exactly when the name was listed, and raises otherwise |
| Util.EnumObject.SetAttr | src/voodoo/util/__init__.py:11-12 | every attribute assignment raises `NotImplementedError` |
| Util.TableLastIndex | src/voodoo/util/__init__.py:3-4 | exactly the listed names get a value; each value lies in `[0, len(names))` and is the last position holding that name; distinct names get distinct values |
| Util.TableLast | src/voodoo/util/__init__.py:3-4 | a name not listed again later gets the position it is listed at |
| ViamComponent.ImageUpdateValues | src/voodoo/component/viam_component.py:7 | `''` is 0, `SINGLE_BUFFERING` 1, `DOUBLE_BUFFERING` 2 |
| ViamComponent.HwSizeValues | src/voodoo/component/viam_component.py:11-19 | `INVALID` is 0 and `_640x480` is 4 |
| ViamComponent.HwFmtValues | src/voodoo/component/viam_component.py:21-24 | `INVALID` is 0 and `MONO8` is 1 |
| ViamComponent.HwFpsValues | src/voodoo/component/viam_component.py:26-28 | `INVALID` is 0 and `_30` is 5 |
| ViamComponent.HwTriggerValues | src/voodoo/component/viam_component.py:30-32 | `INVALID` is 0 and `INTERNAL` is 1 |
| ViamComponent.SwitchValues | src/voodoo/component/viam_component.py:8-36 | `Active.ENABLE` is 1, `HwCrop.FIXED` 0, `IO.LOAD` 0, `OnOff.ON` 1 |
| ViamComponent.FilterValues | src/voodoo/component/viam_component.py:40-67 | `Filter.RECTIFY` is 5; `FilterMethod.SOFTWARE` is 4 and the blank is 3 |
| ViamComponent.FilterAutomodeManualValue | src/voodoo/component/viam_component.py:69-78 | `MANUAL` is 1 |
| ViamComponent.FilterAutomodeHardwareValue | src/voodoo/component/viam_component.py:69-78 | `HARDWARE_AUTO` is 2 |
| ViamComponent.FilterAutomodeMiddleValues | src/voodoo/component/viam_component.py:69-78 | `HARDWARE_ONE_PUSH` is 4 and `SOFTWARE_AUTO` 8 |
| ViamComponent.FilterAutomodeSoftwareValues | src/voodoo/component/viam_component.py:69-78 | `SOFTWARE_ONE_PUSH` is 16, and the repeated blank resolves to its last position, 15 |
| ViamComponent.Viam.constructor | src/voodoo/component/viam_component.py:157-159 | the object keeps the supervisor it is given |
| ViamComponent.Viam.Start | src/voodoo/component/viam_component.py:175-176 | `start` is `startComponent('viam')` on the local host |
| ViamComponent.Viam.Stop | src/voodoo/component/viam_component.py:178-179 | `stop` is `stopComponent('viam')` on the local host |
| ViamComponent.Viam.Enter | src/voodoo/component/viam_component.py:161-169 | `__enter__` starts `viam` first: a failed start raises with the clock untouched, and an unset HOME raises at the first probe. Otherwise it returns the object at the first tick at which the marker exists, with none seen before |
| ViamComponent.Viam.Exit | src/voodoo/component/viam_component.py:171-173 | `__exit__` stops `viam` and returns a truthy value unless `stop` raised |
| ViamComponent.ViamBracket | src/voodoo/component/viam_component.py:256-288 | the inner bracket stops `viam` exactly when it entered, which it does when the start succeeded and HOME is set; the multiplexer handle is unchanged and the trace only grows |
| ViamComponent.BasicTest | src/voodoo/component/viam_component.py:254-289 | a failed supervisor start raises and does nothing else. Otherwise the requests are start, start `viam`, stop `viam` (only when the viam bracket was entered), terminate. The multiplexer started at entry is sent a termination signal, and only a failing `h2 end` escapes |
| NmbtComponent.Nmbt.constructor | src/voodoo/component/nmbt_component.py:21-23 | the object keeps the supervisor it is given |
| NmbtComponent.Nmbt.Start | src/voodoo/component/nmbt_component.py:38-39 | `start` is `startComponent('nmbt')` on the local host |
| NmbtComponent.Nmbt.Stop | src/voodoo/component/nmbt_component.py:41-42 | `stop` is `stopComponent('nmbt')` on the local host |
| NmbtComponent.Nmbt.Enter | src/voodoo/component/nmbt_component.py:25-32 | `__enter__` starts `nmbt` first: a failed start raises with the clock untouched, and an unset HOME raises at the first probe. Otherwise it returns the object at the first tick at which the marker exists, with none seen before |
| NmbtComponent.Nmbt.Exit | src/voodoo/component/nmbt_component.py:34-36 | `__exit__` stops `nmbt` and returns a truthy value unless `stop` raised |
| NmbtComponent.NmbtBracket | src/voodoo/component/nmbt_component.py:75-112 | the innermost bracket stops `nmbt` exactly when it entered; the multiplexer handle is unchanged and the trace only grows |
| NmbtComponent.ViamNmbtBracket | src/voodoo/component/nmbt_component.py:73-112 | `nmbt` is started only inside an entered `viam` bracket; it is stopped before `viam`, and only when it was entered |
| NmbtComponent.BasicTest | src/voodoo/component/nmbt_component.py:60-113 | an unset HOME raises before anything starts. A failed supervisor start raises and does nothing else. Otherwise the brackets open in the order supervisor, `viam`, `nmbt` and close in reverse, each as far as it was entered. The multiplexer is sent a termination signal, and only a failing `h2 end` escapes |

## Left out

- Real processes, pipes, files, ssh and the environment are not modelled.
  They become the `Os` trace and map and the `Oracle`, so an `OSError`
  from `Popen` or from opening an output file is not modelled.
- `call` and `sshCall` keep no handle. The model records their spawn and
  takes the exit status at once.
- The returned handles carry no stdout/stderr streams.
- `dumpLogs` is not modelled: it only prints streams.
- Logging is not modelled.
- The errors `TclservFailed` and `ComponentExitFailed` do not carry the
  exception Python raises. Before raising, genom.py:199-200 and :244-245 log
  `p.stdout.read()`, but those processes were given a file as output, so
  `p.stdout` is `None` and the read raises `AttributeError`. The messages
  "failed to start tclserv" and "error while terminating component" are
  never raised. The model keeps the state at that point and the fact that
  an exception escapes, and names it after the message the code meant to
  raise.
- Reconfiguring `Genom.commands` is not modelled. The default program
  names are constants.
- The metaclass machinery is not modelled, and neither are the entries
  Python adds to a class dictionary. An enum is its name-to-index map.
- The `make_viam_*`/`make_nmbt_*` builders, the `_viam`/`_nmbt` remote
  calls and their float arguments are not modelled. These are the bodies
  of the two tests, which catch every exception themselves.
- The polling loops have no bound in the source and never return when the
  marker never appears. `GenomShell.AwaitReady` and the `__enter__`
  methods require the marker to appear at some tick. The nested test also
  requires the `nmbt` marker to stay once written, so a bracket that would
  spin forever is outside the model.
- The `Oracle` lets a process report a return code right after `Popen`.
  CPython leaves it `None` then, so the "return code set" error paths are
  modelled more generally than CPython reaches them.
- The `TypeError` that formatting the message at genom.py:220 would raise
  is modelled as the `ComponentStartFailed` error that message was meant
  to carry.
- A `None` environment value (GENOM_PATH and PATH unset, or HOME unset)
  makes Python raise `TypeError`. It is modelled as `PathUnset` or
  `HomeUnset`.
- StopComponentStep and StopComponentTrace: when the stored return code
  is set and non-zero, the model records a term and a kill request and
  then the wait status. In CPython that return code is set only by an
  earlier `wait()`, so the process has already been reaped. Signalling it
  then raises `OSError` in Python 2 and sends nothing in Python 3, and
  neither records two signals. The model does not capture what signalling
  a reaped process does.
- Concurrency is not modelled: the source has none.
