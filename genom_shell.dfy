/**
 * The free functions of the GenoM middleware module: resolving the GenoM
 * search path from the environment, launching and calling programs (always
 * through `ssh`, even on the local host), `killall`, and the readiness probe
 * `module_ready`. Each operation that touches the machine is a method on an
 * `Os`, proved against a pure function of the machine's state.
 */
module GenomShell {
  import opened Wrappers
  import opened System

  /** The exceptions the supervisor and its helpers raise. */
  datatype Error =
    | PathUnset                                       // GENOM_PATH and PATH both unset: assigning None to os.environ fails
    | HomeUnset                                       // HOME unset: None + "/." fails in module_ready
    | H2InitFailed(status: int)                       // "failed to start h2"
    | TclservFailed(returncode: int)                  // logging p.stdout, which is None, raises AttributeError
    | ComponentStartFailed(component: string, returncode: int) // formatting its message raises TypeError first
    | ComponentStopFailed(component: string, status: int)
    | NoSuchComponent(key: string)                    // KeyError on the registry lookup
    | ComponentExitFailed(component: string, status: int) // as TclservFailed: the log read raises first
    | H2EndFailed(status: int)                        // "Failed to terminate h2"

  /** The machine after an operation, and what the operation returned or raised. */
  datatype After<+T> = After(world: World, result: Result<T, Error>)

  const Localhost: string := "localhost"
  const GenomPathVar: string := "GENOM_PATH"
  const PathVar: string := "PATH"
  const HomeVar: string := "HOME"

  /** Python's truthiness of `os.getenv(name)`: set and not empty. */
  predicate IsSet(env: map<string, string>, name: string) {
    name in env && env[name] != ""
  }

  /** `e'` agrees with `e` on every variable except GENOM_PATH. */
  ghost predicate SameExceptGenomPath(e: map<string, string>, e': map<string, string>) {
    forall k :: k != GenomPathVar ==> (k in e <==> k in e') && (k in e ==> e[k] == e'[k])
  }

  lemma SameExceptTransitive(e1: map<string, string>, e2: map<string, string>, e3: map<string, string>)
    requires SameExceptGenomPath(e1, e2) && SameExceptGenomPath(e2, e3)
    ensures SameExceptGenomPath(e1, e3)
  {
  }

  // ---------------------------------------------------------------------------
  // getGenomPath

  /** `getGenomPath()`: GENOM_PATH when it is set and not empty; otherwise PATH,
      which is first copied into GENOM_PATH. */
  function GenomPathSpec(w: World): (r: After<string>)
    ensures r.world.events == w.events
  {
    if IsSet(w.env, GenomPathVar) then After(w, Ok(w.env[GenomPathVar]))
    else if PathVar !in w.env then After(w, Err(PathUnset))
    else After(World(w.env[GenomPathVar := w.env[PathVar]], w.events), Ok(w.env[PathVar]))
  }

  /** What resolving the GenoM path promises: it succeeds exactly when
      GENOM_PATH is set and not empty or PATH is set, it only ever writes
      GENOM_PATH, and on success GENOM_PATH holds the value returned. */
  lemma GenomPathResolves(w: World)
    ensures var r := GenomPathSpec(w);
            && SameExceptGenomPath(w.env, r.world.env)
            && (r.result.Ok? <==> IsSet(w.env, GenomPathVar) || PathVar in w.env)
            && (r.result.Err? ==> r == After(w, Err(PathUnset)))
            && (r.result.Ok? ==> GenomPathVar in r.world.env && r.world.env[GenomPathVar] == r.result.value)
            && (IsSet(w.env, GenomPathVar) ==> r == After(w, Ok(w.env[GenomPathVar])))
            && (!IsSet(w.env, GenomPathVar) && PathVar in w.env ==> r.result == Ok(w.env[PathVar]))
  {
  }

  /** Once resolved, the GenoM path is stable: any later call, whatever
      has been appended to the trace meanwhile, returns the same value and
      changes nothing, as long as the environment was left as it was. */
  lemma GenomPathStable(w: World, w': World)
    requires GenomPathSpec(w).result.Ok?
    requires w'.env == GenomPathSpec(w).world.env
    ensures GenomPathSpec(w') == After(w', GenomPathSpec(w).result)
  {
    var r := GenomPathSpec(w);
    if !IsSet(w.env, GenomPathVar) {
      assert w'.env[GenomPathVar] == w.env[PathVar];
      if w.env[PathVar] == "" {
        assert w'.env[GenomPathVar := w'.env[PathVar]] == w'.env;
      }
    }
  }

  method GetGenomPath(os: Os) returns (r: Result<string, Error>)
    modifies os`env
    ensures After(os.Snapshot(), r) == GenomPathSpec(old(os.Snapshot()))
  {
    var res := os.GetEnv(GenomPathVar);
    if res.None? || res.value == "" {
      var path := os.GetEnv(PathVar);
      if path.None? {
        return Err(PathUnset);
      }
      os.PutEnv(GenomPathVar, path.value);
      res := os.GetEnv(GenomPathVar);
    }
    r := Ok(res.value);
  }

  // ---------------------------------------------------------------------------
  // launch, call, sshLaunch, sshCall, killall

  /** The remote shell line: `sh -c 'PATH='<genomPath>:$PATH' <cmd>'`. */
  function ShellLine(cmd: string, genomPath: string): string {
    "sh -c 'PATH='" + genomPath + ":$PATH' " + cmd + "'"
  }

  /** The argument vector of `sshLaunch` and `sshCall`. */
  function SshArgv(cmd: string, genomPath: string, host: string): seq<string> {
    ["ssh", "-X", host, ShellLine(cmd, genomPath)]
  }

  /** The remote command can be read back from the shell line: it is what
      follows the fixed prefix and the path, up to the closing quote. */
  lemma ShellLineCommand(cmd: string, genomPath: string)
    ensures var line, n := ShellLine(cmd, genomPath), |"sh -c 'PATH='" + genomPath + ":$PATH' "|;
            |line| == n + |cmd| + 1 && line[n..|line| - 1] == cmd && line[|line| - 1] == '\''
  {
    var pre := "sh -c 'PATH='" + genomPath + ":$PATH' ";
    assert ShellLine(cmd, genomPath) == pre + cmd + "'";
  }

  /** Different commands (or hosts) sent with the same GenoM path never
      produce the same `ssh` invocation. */
  lemma SshArgvInjective(cmd1: string, cmd2: string, genomPath: string, host1: string, host2: string)
    requires SshArgv(cmd1, genomPath, host1) == SshArgv(cmd2, genomPath, host2)
    ensures cmd1 == cmd2 && host1 == host2
  {
    var n := |"sh -c 'PATH='" + genomPath + ":$PATH' "|;
    var line := ShellLine(cmd1, genomPath);
    assert line == SshArgv(cmd1, genomPath, host1)[3];
    ShellLineCommand(cmd1, genomPath);
    ShellLineCommand(cmd2, genomPath);
    assert cmd1 == line[n..|line| - 1] == cmd2;
    assert host1 == SshArgv(cmd1, genomPath, host1)[2];
  }

  /** `launch(prog, stdout)`. */
  method Launch(os: Os, prog: seq<string>, stdout: Sink) returns (p: Handle)
    modifies os`events
    ensures os.events == old(os.events) + [Spawn(prog, stdout)]
    ensures p == Handle(|old(os.events)|, os.oracle.early(|old(os.events)|))
  {
    p := os.Popen(prog, stdout);
  }

  /** `call(prog, stdout)`: launch and wait. */
  method Call(os: Os, prog: seq<string>, stdout: Sink) returns (status: int)
    modifies os`events
    ensures os.events == old(os.events) + [Spawn(prog, stdout)]
    ensures status == WaitStatus(os.oracle, Handle(|old(os.events)|, os.oracle.early(|old(os.events)|)))
  {
    var p := os.Popen(prog, stdout);
    status, p := os.Wait(p);
  }

  /** `sshLaunch(cmd, stdout, host)`. */
  function SshLaunchSpec(w: World, o: Oracle, cmd: string, stdout: Sink, host: string): After<Handle> {
    var g := GenomPathSpec(w);
    match g.result
    case Err(e) => After(g.world, Err(e))
    case Ok(genomPath) =>
      var pid := |g.world.events|;
      After(World(g.world.env, g.world.events + [Spawn(SshArgv(cmd, genomPath, host), stdout)]),
            Ok(Handle(pid, o.early(pid))))
  }

  /** `sshCall(cmd, stdout, host)`. */
  function SshCallSpec(w: World, o: Oracle, cmd: string, stdout: Sink, host: string): After<int> {
    var l := SshLaunchSpec(w, o, cmd, stdout, host);
    match l.result
    case Err(e) => After(l.world, Err(e))
    case Ok(p) => After(l.world, Ok(WaitStatus(o, p)))
  }

  /** `killall(prog, host)`: the host is not used; the kill always goes to the
      local host, with output piped back. */
  function KillallSpec(w: World, o: Oracle, prog: string, host: string): After<int> {
    SshCallSpec(w, o, "killall " + prog, Pipe, Localhost)
  }

  /** Every `ssh` operation either raises before touching the machine (the
      GenoM path cannot be resolved) or spawns exactly one `ssh` process. */
  lemma SshLaunchShape(w: World, o: Oracle, cmd: string, stdout: Sink, host: string)
    ensures var r := SshLaunchSpec(w, o, cmd, stdout, host);
            && (r.result.Err? <==> GenomPathSpec(w).result.Err?)
            && (r.result.Err? ==> r == After(w, Err(PathUnset)))
            && (r.result.Ok? ==>
                  && r.world.env == GenomPathSpec(w).world.env
                  && r.world.events == w.events + [Spawn(SshArgv(cmd, GenomPathSpec(w).result.value, host), stdout)]
                  && r.result.value == Handle(|w.events|, o.early(|w.events|)))
  {
  }

  /** Once the GenoM path resolves to `genomPath`, `sshLaunch` spawns exactly
      `ssh -X host "sh -c 'PATH='genomPath:$PATH' cmd'"` and returns its handle. */
  lemma SshLaunchResolved(w: World, o: Oracle, cmd: string, stdout: Sink, host: string, genomPath: string)
    requires GenomPathSpec(w).result == Ok(genomPath)
    ensures SshLaunchSpec(w, o, cmd, stdout, host) ==
              After(World(GenomPathSpec(w).world.env, w.events + [Spawn(SshArgv(cmd, genomPath, host), stdout)]),
                    Ok(Handle(|w.events|, o.early(|w.events|))))
  {
  }

  /** Once the GenoM path resolves, `sshCall` spawns the same command line and
      returns the exit status of that process. */
  lemma SshCallResolved(w: World, o: Oracle, cmd: string, stdout: Sink, host: string, genomPath: string)
    requires GenomPathSpec(w).result == Ok(genomPath)
    ensures SshCallSpec(w, o, cmd, stdout, host) ==
              After(World(GenomPathSpec(w).world.env, w.events + [Spawn(SshArgv(cmd, genomPath, host), stdout)]),
                    Ok(WaitStatus(o, Handle(|w.events|, o.early(|w.events|)))))
  {
  }

  method SshLaunch(os: Os, cmd: string, stdout: Sink, host: string) returns (r: Result<Handle, Error>)
    modifies os`env, os`events
    ensures After(os.Snapshot(), r) == SshLaunchSpec(old(os.Snapshot()), os.oracle, cmd, stdout, host)
  {
    var genomPath := GetGenomPath(os);
    if genomPath.Err? {
      return Err(genomPath.error);
    }
    var p := Launch(os, SshArgv(cmd, genomPath.value, host), stdout);
    r := Ok(p);
  }

  method SshCall(os: Os, cmd: string, stdout: Sink, host: string) returns (r: Result<int, Error>)
    modifies os`env, os`events
    ensures After(os.Snapshot(), r) == SshCallSpec(old(os.Snapshot()), os.oracle, cmd, stdout, host)
  {
    var genomPath := GetGenomPath(os);
    if genomPath.Err? {
      return Err(genomPath.error);
    }
    var status := Call(os, SshArgv(cmd, genomPath.value, host), stdout);
    r := Ok(status);
  }

  method Killall(os: Os, prog: string, host: string) returns (r: Result<int, Error>)
    modifies os`env, os`events
    ensures After(os.Snapshot(), r) == SshCallSpec(old(os.Snapshot()), os.oracle, "killall " + prog, Pipe, Localhost)
  {
    r := SshCall(os, "killall " + prog, Pipe, Localhost);
  }

  // ---------------------------------------------------------------------------
  // module_ready

  /** The readiness marker a component leaves in the user's home directory. */
  function MarkerPath(home: string, component: string, hostname: string): string {
    home + "/." + component + ".pid-" + hostname
  }

  /** Two components of the same user on the same host never share a marker. */
  lemma MarkerPathInjective(home: string, c1: string, c2: string, hostname: string)
    requires MarkerPath(home, c1, hostname) == MarkerPath(home, c2, hostname)
    ensures c1 == c2
  {
    var m1, m2 := MarkerPath(home, c1, hostname), MarkerPath(home, c2, hostname);
    var n := |home| + 2;
    assert m1 == (home + "/.") + c1 + (".pid-" + hostname);
    assert m2 == (home + "/.") + c2 + (".pid-" + hostname);
    assert |c1| == |c2|;
    assert m1[n..n + |c1|] == c1;
    assert m2[n..n + |c2|] == c2;
  }

  /** The marker of `component` exists at tick `t`. */
  ghost predicate MarkerAt(os: Os, component: string, t: nat)
    reads os`env
  {
    HomeVar in os.env && MarkerPath(os.env[HomeVar], component, os.oracle.hostname) in os.oracle.files(t)
  }

  /** The component writes its marker at some tick from now on (or HOME is
      unset, so the probe raises at once): the polling loops then end. */
  ghost predicate MarkerEventually(os: Os, component: string)
    reads os`env, os`now
  {
    HomeVar in os.env ==>
      exists t: nat :: os.now <= t && MarkerPath(os.env[HomeVar], component, os.oracle.hostname) in os.oracle.files(t)
  }

  /** `module_ready(component)`: whether the component's marker exists now. */
  method ModuleReady(os: Os, component: string) returns (r: Result<bool, Error>)
    ensures HomeVar !in os.env ==> r == Err(HomeUnset)
    ensures HomeVar in os.env ==>
              r == Ok(MarkerPath(os.env[HomeVar], component, os.oracle.hostname) in os.oracle.files(os.now))
  {
    var hostname := os.GetHostname();
    var home := os.GetEnv(HomeVar);
    if home.None? {
      return Err(HomeUnset);
    }
    var ready := os.Access(MarkerPath(home.value, component, hostname));
    r := Ok(ready);
  }

  /** The component's marker, once written, stays from some tick on (or HOME
      is unset). Unlike `MarkerEventually`, this survives the clock moving. */
  ghost predicate MarkerStays(os: Os, component: string)
    reads os`env
  {
    HomeVar in os.env ==>
      exists t: nat :: PresentFrom(os.oracle, MarkerPath(os.env[HomeVar], component, os.oracle.hostname), t)
  }

  /** `path` exists at tick `t` and at every later tick. */
  ghost predicate PresentFrom(o: Oracle, path: string, t: nat) {
    forall t': nat :: t <= t' ==> path in o.files(t')
  }

  /** A marker that stays is one the component writes eventually, whatever
      the clock reads. */
  lemma MarkerStaysEventually(os: Os, component: string)
    requires MarkerStays(os, component)
    ensures MarkerEventually(os, component)
  {
    if HomeVar in os.env {
      var m := MarkerPath(os.env[HomeVar], component, os.oracle.hostname);
      var t: nat :| PresentFrom(os.oracle, m, t);
      var t' := if t <= os.now then os.now else t;
      assert m in os.oracle.files(t');
    }
  }

  /** The polling loop of a component's `__enter__`: probe the marker, and
      sleep one tick while it is missing. With HOME unset the probe raises
      at once; otherwise the loop stops at the first tick the marker exists. */
  method AwaitReady(os: Os, component: string) returns (r: Outcome<Error>)
    requires MarkerEventually(os, component)
    modifies os`now
    ensures HomeVar !in os.env ==> r == Fail(HomeUnset) && os.now == old(os.now)
    ensures HomeVar in os.env ==>
              && r == Pass && old(os.now) <= os.now && MarkerAt(os, component, os.now)
              && forall t :: old(os.now) <= t < os.now ==> !MarkerAt(os, component, t)
  {
    ghost var deadline: nat := os.now;
    if HomeVar in os.env {
      deadline :| os.now <= deadline
                 && MarkerPath(os.env[HomeVar], component, os.oracle.hostname) in os.oracle.files(deadline);
    }
    var ready := ModuleReady(os, component);
    while ready == Ok(false)
      invariant old(os.now) <= os.now <= deadline
      invariant HomeVar in os.env ==> ready == Ok(MarkerAt(os, component, os.now))
      invariant HomeVar !in os.env ==> ready == Err(HomeUnset)
      invariant HomeVar in os.env ==>
                  MarkerPath(os.env[HomeVar], component, os.oracle.hostname) in os.oracle.files(deadline)
      invariant forall t :: old(os.now) <= t < os.now ==> !MarkerAt(os, component, t)
      decreases deadline - os.now
    {
      os.Sleep();
      ready := ModuleReady(os, component);
    }
    if ready.Err? {
      return Fail(ready.error);
    }
    r := Pass;
  }
}
