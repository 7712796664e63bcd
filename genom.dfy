/**
 * The GenoM supervisor: a `Genom` object remembers, per host, whether the
 * runtime was started, the handle of the `tclserv` multiplexer it launched
 * last, and a registry of component processes keyed by `host + "/" + component`.
 *
 * Each operation is a method of the class, proved equal to a pure step
 * function of the supervisor's fields and the machine; the lemmas below the
 * class state what the steps do.
 */
module Genom {
  import opened Wrappers
  import opened System
  import opened GenomShell

  /** The default entries of `Genom.commands`. */
  const H2Cmd: string := "h2"
  const TclservCmd: string := "tclserv"
  const KillmoduleCmd: string := "killmodule"

  /** The fields of a `Genom` object. */
  datatype Supervisor = Supervisor(
    started: map<string, bool>,
    tclserv: Option<Handle>,
    components: map<string, Handle>)

  /** The supervisor and the machine after an operation, and its outcome. */
  datatype Step = Step(sup: Supervisor, world: World, outcome: Outcome<Error>)

  /** A newly constructed supervisor: nothing started, no multiplexer, no component. */
  const Idle: Supervisor := Supervisor(map[], None, map[])

  /** The lifecycle requests made to a supervisor, in order. */
  datatype Request =
    | StartRequest(host: string)
    | StartComponentRequest(component: string, host: string)
    | StopComponentRequest(component: string, host: string)
    | TerminateRequest

  /** The registry key of a component on a host. */
  function RegistryKey(host: string, component: string): string {
    host + "/" + component
  }

  /** The file a component's output is redirected to. */
  function LogPath(component: string): string {
    "/tmp/" + component + ".log"
  }

  /** Two components never write to the same log file. */
  lemma LogPathInjective(c1: string, c2: string)
    requires LogPath(c1) == LogPath(c2)
    ensures c1 == c2
  {
    var l1, l2 := LogPath(c1), LogPath(c2);
    assert |c1| == |c2|;
    assert l1[5..5 + |c1|] == c1;
    assert l2[5..5 + |c2|] == c2;
  }

  // ---------------------------------------------------------------------------
  // killmodule's name stripping

  /** The last element of `s.rsplit('/', 1)`: the text after the last '/',
      or all of `s` when it has none. */
  function Basename(s: string): string
    decreases |s|
  {
    if s == [] || s[|s| - 1] == '/' then []
    else Basename(s[..|s| - 1]) + [s[|s| - 1]]
  }

  /** The basename is the slash-free tail of `s` that follows its last '/'
      (all of `s` when it has none). */
  lemma {:induction false} BasenameTail(s: string)
    ensures var r := Basename(s);
            && '/' !in r
            && |r| <= |s| && s[|s| - |r|..] == r
            && ('/' !in s ==> r == s)
            && (|r| < |s| ==> s[|s| - |r| - 1] == '/')
    decreases |s|
  {
    if s != [] && s[|s| - 1] != '/' {
      var n := |s| - 1;
      BasenameTail(s[..n]);
      var r' := Basename(s[..n]);
      assert Basename(s) == r' + [s[n]];
      assert s[|s| - |r'| - 1..] == s[..n][n - |r'|..] + [s[n]];
      if |r'| < n {
        assert s[|s| - |r'| - 2] == s[..n][n - |r'| - 1];
      }
      if '/' !in s {
        assert '/' !in s[..n];
      }
    }
  }

  /** Stripping twice strips nothing more. */
  lemma {:induction false} BasenameIdempotent(s: string)
    ensures Basename(Basename(s)) == Basename(s)
  {
    BasenameTail(s);
    BasenameTail(Basename(s));
  }

  /** Prefixing a path with `dir + "/"` does not change its basename: this is
      why `stopComponent`'s `killmodule(host + "/" + component)` names the
      same module as `startComponent`'s `killmodule(component)`. */
  lemma {:induction false} BasenameAfterSlash(dir: string, s: string)
    ensures Basename(dir + "/" + s) == Basename(s)
    decreases |s|
  {
    var path := dir + "/" + s;
    if s == [] {
      assert path[|path| - 1] == '/';
    } else {
      var n := |s| - 1;
      assert path[|path| - 1] == s[n];
      if s[n] != '/' {
        assert path[..|path| - 1] == dir + "/" + s[..n];
        calc {
          Basename(path);
          Basename(dir + "/" + s[..n]) + [s[n]];
          { BasenameAfterSlash(dir, s[..n]); }
          Basename(s[..n]) + [s[n]];
        }
      }
    }
  }

  /** `killmodule(component, host)`: the `host` argument lands in `sshCall`'s
      `stdout` slot, so the kill goes to the local host and its output to a
      file named after `host`. */
  function KillmoduleSpec(w: World, o: Oracle, component: string, host: string): After<int> {
    SshCallSpec(w, o, KillmoduleCmd + " " + Basename(component), File(host), Localhost)
  }

  // ---------------------------------------------------------------------------
  // The four lifecycle steps

  /** `start(host)`. */
  function StartStep(s: Supervisor, w: World, o: Oracle, host: string): Step {
    // An already started host only gets a warning logged; nothing returns early.
    var k := KillallSpec(w, o, host, "tclserv");     // killall(host, "tclserv"): arguments swapped
    if k.result.Err? then Step(s, k.world, Fail(k.result.error)) else
    var init := SshLaunchSpec(k.world, o, H2Cmd + " init", File(host), Localhost);
    if init.result.Err? then Step(s, init.world, Fail(init.result.error)) else
    var p := init.result.value;
    var fed := World(init.world.env, init.world.events + [Feed(p.pid, "y\n")]);
    var status := WaitStatus(o, p);
    if status != 0 then Step(s, fed, Fail(H2InitFailed(status))) else
    var t := SshLaunchSpec(fed, o, TclservCmd, File(host), Localhost);
    if t.result.Err? then Step(s, t.world, Fail(t.result.error)) else
    var s1 := s.(tclserv := Some(t.result.value));
    if Truthy(t.result.value.returncode) then Step(s1, t.world, Fail(TclservFailed(t.result.value.returncode.value)))
    else Step(s1.(started := s.started[host := true]), t.world, Pass)
  }

  /** `startComponent(component, host)`. */
  function StartComponentStep(s: Supervisor, w: World, o: Oracle, component: string, host: string): Step {
    var k := KillallSpec(w, o, component, host);
    if k.result.Err? then Step(s, k.world, Fail(k.result.error)) else
    var m := KillmoduleSpec(k.world, o, component, host);
    if m.result.Err? then Step(s, m.world, Fail(m.result.error)) else
    var l := SshLaunchSpec(m.world, o, component, File(LogPath(component)), host);
    if l.result.Err? then Step(s, l.world, Fail(l.result.error)) else
    var p := l.result.value;
    if Truthy(p.returncode) then Step(s, l.world, Fail(ComponentStartFailed(component, p.returncode.value)))
    else Step(s.(components := s.components[RegistryKey(host, component) := p]), l.world, Pass)
  }

  /** `stopComponent(component, host)`. */
  function StopComponentStep(s: Supervisor, w: World, o: Oracle, component: string, host: string): Step {
    var key := RegistryKey(host, component);
    var m := KillmoduleSpec(w, o, key, Localhost);
    if m.result.Err? then Step(s, m.world, Fail(m.result.error)) else
    if m.result.value != 0 then Step(s, m.world, Fail(ComponentStopFailed(component, m.result.value))) else
    if key !in s.components then Step(s, m.world, Fail(NoSuchComponent(key))) else
    var p := s.components[key];
    var signalled :=
      if Truthy(p.returncode) then World(m.world.env, m.world.events + [Signal(p.pid, Term)] + [Signal(p.pid, Kill)])
      else m.world;
    var status := WaitStatus(o, p);
    var s1 := s.(components := s.components[key := p.(returncode := Some(status))]);
    if status != 0 then Step(s1, signalled, Fail(ComponentExitFailed(component, status)))
    else Step(s1, signalled, Pass)
  }

  /** `terminate()`. */
  function TerminateStep(s: Supervisor, w: World, o: Oracle): Step {
    var w1 :=
      match s.tclserv
      case None => w
      case Some(t) => World(w.env, w.events + [Signal(t.pid, Term)] + [Signal(t.pid, Kill)]);
    var info := |w1.events|;
    var w2 := World(w1.env, w1.events + [Spawn(["h2", "info"], Pipe)]);
    if WaitStatus(o, Handle(info, o.early(info))) == 3 then Step(s, w2, Pass) else
    var end := |w2.events|;
    var w3 := World(w2.env, w2.events + [Spawn(["h2", "end"], Pipe)]);
    var status := WaitStatus(o, Handle(end, o.early(end)));
    if status != 0 then Step(s, w3, Fail(H2EndFailed(status))) else Step(s, w3, Pass)
  }

  // ---------------------------------------------------------------------------
  // The registry invariant

  /** `p` is the process launched by running `component` on `host` over ssh,
      with its output sent to the component's log, where `key` names them. */
  ghost predicate LaunchedAs(w: World, key: string, p: Handle) {
    && p.pid < |w.events|
    && exists host, component, genomPath ::
         && key == RegistryKey(host, component)
         && w.events[p.pid] == Spawn(SshArgv(component, genomPath, host), File(LogPath(component)))
  }

  /** Every handle the supervisor holds is a process it spawned; every
      registry entry is the launch of the component its key names; no two
      entries, and no entry and the multiplexer, share a process. */
  ghost predicate Registered(s: Supervisor, w: World) {
    && (s.tclserv.Some? ==> s.tclserv.value.pid < |w.events| && w.events[s.tclserv.value.pid].Spawn?)
    && (forall key {:trigger LaunchedAs(w, key, s.components[key])} ::
          key in s.components ==> LaunchedAs(w, key, s.components[key]))
    && (forall k1, k2 :: k1 in s.components && k2 in s.components && k1 != k2 ==>
          s.components[k1].pid != s.components[k2].pid)
    && (forall key :: key in s.components && s.tclserv.Some? ==> s.components[key].pid != s.tclserv.value.pid)
  }

  class Genom {
    var started: map<string, bool>
    var tclserv: Option<Handle>
    var components: map<string, Handle>
    ghost var history: seq<Request>

    function State(): Supervisor
      reads this
    {
      Supervisor(started, tclserv, components)
    }

    ghost predicate Valid(os: Os)
      reads this, os
    {
      Registered(State(), os.Snapshot())
    }

    constructor ()
      ensures State() == Idle && history == []
      ensures forall os: Os :: Valid(os)
    {
      started := map[];
      tclserv := None;
      components := map[];
      history := [];
    }

    method Killmodule(os: Os, component: string, host: string) returns (r: Result<int, Error>)
      modifies os`env, os`events
      ensures After(os.Snapshot(), r) == KillmoduleSpec(old(os.Snapshot()), os.oracle, component, host)
    {
      r := SshCall(os, KillmoduleCmd + " " + Basename(component), File(host), Localhost);
    }

    method Start(os: Os, host: string) returns (r: Outcome<Error>)
      requires Valid(os)
      modifies this, os`env, os`events
      ensures Step(State(), os.Snapshot(), r) == StartStep(old(State()), old(os.Snapshot()), os.oracle, host)
      ensures history == old(history) + [StartRequest(host)]
      ensures Valid(os)
    {
      history := history + [StartRequest(host)];
      ghost var step := StartStep(State(), os.Snapshot(), os.oracle, host);
      StartKeepsRegistered(State(), os.Snapshot(), os.oracle, host);
      // An already started host only gets a warning logged.
      var k := Killall(os, host, "tclserv");
      if k.Err? {
        r := Fail(k.error);
        assert Step(State(), os.Snapshot(), r) == step;
        return;
      }
      var init := SshLaunch(os, H2Cmd + " init", File(host), Localhost);
      if init.Err? {
        r := Fail(init.error);
        assert Step(State(), os.Snapshot(), r) == step;
        return;
      }
      var p := os.Communicate(init.value, "y\n");
      var status;
      status, p := os.Wait(p);
      if status != 0 {
        r := Fail(H2InitFailed(status));
        assert Step(State(), os.Snapshot(), r) == step;
        return;
      }
      var t := SshLaunch(os, TclservCmd, File(host), Localhost);
      if t.Err? {
        r := Fail(t.error);
        assert Step(State(), os.Snapshot(), r) == step;
        return;
      }
      tclserv := Some(t.value);
      if Truthy(t.value.returncode) {
        r := Fail(TclservFailed(t.value.returncode.value));
        assert Step(State(), os.Snapshot(), r) == step;
        return;
      }
      started := started[host := true];
      r := Pass;
      assert Step(State(), os.Snapshot(), r) == step;
    }

    method StartComponent(os: Os, component: string, host: string) returns (r: Outcome<Error>)
      requires Valid(os)
      modifies this, os`env, os`events
      ensures Step(State(), os.Snapshot(), r) ==
                StartComponentStep(old(State()), old(os.Snapshot()), os.oracle, component, host)
      ensures history == old(history) + [StartComponentRequest(component, host)]
      ensures Valid(os)
    {
      history := history + [StartComponentRequest(component, host)];
      ghost var step := StartComponentStep(State(), os.Snapshot(), os.oracle, component, host);
      StartComponentKeepsRegistered(State(), os.Snapshot(), os.oracle, component, host);
      var k := Killall(os, component, host);
      if k.Err? {
        r := Fail(k.error);
        assert Step(State(), os.Snapshot(), r) == step;
        return;
      }
      var m := Killmodule(os, component, host);
      if m.Err? {
        r := Fail(m.error);
        assert Step(State(), os.Snapshot(), r) == step;
        return;
      }
      var p := SshLaunch(os, component, File(LogPath(component)), host);
      if p.Err? {
        r := Fail(p.error);
        assert Step(State(), os.Snapshot(), r) == step;
        return;
      }
      if Truthy(p.value.returncode) {
        r := Fail(ComponentStartFailed(component, p.value.returncode.value));
        assert Step(State(), os.Snapshot(), r) == step;
        return;
      }
      components := components[RegistryKey(host, component) := p.value];
      r := Pass;
      assert Step(State(), os.Snapshot(), r) == step;
    }

    method StopComponent(os: Os, component: string, host: string) returns (r: Outcome<Error>)
      requires Valid(os)
      modifies this, os`env, os`events
      ensures Step(State(), os.Snapshot(), r) ==
                StopComponentStep(old(State()), old(os.Snapshot()), os.oracle, component, host)
      ensures history == old(history) + [StopComponentRequest(component, host)]
      ensures Valid(os)
    {
      history := history + [StopComponentRequest(component, host)];
      ghost var step := StopComponentStep(State(), os.Snapshot(), os.oracle, component, host);
      StopComponentKeepsRegistered(State(), os.Snapshot(), os.oracle, component, host);
      var key := RegistryKey(host, component);
      var st := Killmodule(os, key, Localhost);
      if st.Err? {
        r := Fail(st.error);
        assert Step(State(), os.Snapshot(), r) == step;
        return;
      }
      if st.value != 0 {
        r := Fail(ComponentStopFailed(component, st.value));
        assert Step(State(), os.Snapshot(), r) == step;
        return;
      }
      if key !in components {
        r := Fail(NoSuchComponent(key));
        assert Step(State(), os.Snapshot(), r) == step;
        return;
      }
      var p := components[key];
      if Truthy(p.returncode) {
        os.SendSignal(p, Term);
        os.SendSignal(p, Kill);
      }
      var status;
      status, p := os.Wait(p);
      components := components[key := p];
      if status != 0 {
        r := Fail(ComponentExitFailed(component, status));
        assert Step(State(), os.Snapshot(), r) == step;
        return;
      }
      r := Pass;
      assert Step(State(), os.Snapshot(), r) == step;
    }

    method Terminate(os: Os) returns (r: Outcome<Error>)
      requires Valid(os)
      modifies this`history, os`events
      ensures Step(State(), os.Snapshot(), r) == TerminateStep(old(State()), old(os.Snapshot()), os.oracle)
      ensures history == old(history) + [TerminateRequest]
      ensures Valid(os)
    {
      history := history + [TerminateRequest];
      ghost var step := TerminateStep(State(), os.Snapshot(), os.oracle);
      TerminateKeepsRegistered(State(), os.Snapshot(), os.oracle);
      if tclserv.Some? {
        os.SendSignal(tclserv.value, Term);
        os.SendSignal(tclserv.value, Kill);
      }
      var p := Launch(os, ["h2", "info"], Pipe);
      var status;
      status, p := os.Wait(p);
      if status != 3 {
        p := Launch(os, ["h2", "end"], Pipe);
        status, p := os.Wait(p);
        if status != 0 {
          r := Fail(H2EndFailed(status));
          assert Step(State(), os.Snapshot(), r) == step;
          return;
        }
      }
      r := Pass;
      assert Step(State(), os.Snapshot(), r) == step;
    }

    /** `__enter__`: start on the local host and return this supervisor. */
    method Enter(os: Os) returns (r: Result<Genom, Error>)
      requires Valid(os)
      modifies this, os`env, os`events
      ensures Valid(os)
      ensures var st := StartStep(old(State()), old(os.Snapshot()), os.oracle, Localhost);
              && State() == st.sup && os.Snapshot() == st.world
              && r == (if st.outcome.Pass? then Ok(this) else Err(st.outcome.error))
      ensures history == old(history) + [StartRequest(Localhost)]
    {
      var s := Start(os, Localhost);
      r := if s.Pass? then Ok(this) else Err(s.error);
    }

    /** `__exit__`: terminate, then return this supervisor, which is truthy:
        an exception raised in the bracket's body is suppressed. */
    method Exit(os: Os) returns (r: Result<bool, Error>)
      requires Valid(os)
      modifies this`history, os`events
      ensures Valid(os)
      ensures var st := TerminateStep(old(State()), old(os.Snapshot()), os.oracle);
              && State() == st.sup && os.Snapshot() == st.world
              && r == (if st.outcome.Pass? then Ok(true) else Err(st.outcome.error))
      ensures history == old(history) + [TerminateRequest]
    {
      var t := Terminate(os);
      r := if t.Pass? then Ok(true) else Err(t.error);
    }
  }


  // ---------------------------------------------------------------------------
  // Lemmas: the registry invariant is kept

  /** The trace only grows. */
  ghost predicate Extends(w: World, w': World) {
    |w.events| <= |w'.events| && w'.events[..|w.events|] == w.events
  }

  lemma ExtendsTransitive(w1: World, w2: World, w3: World)
    requires Extends(w1, w2) && Extends(w2, w3)
    ensures Extends(w1, w3)
  {
    assert w3.events[..|w1.events|] == w3.events[..|w2.events|][..|w1.events|];
  }

  lemma AppendExtends(w: World, env: map<string, string>, more: seq<Event>)
    ensures Extends(w, World(env, w.events + more))
  {
    assert (w.events + more)[..|w.events|] == w.events;
  }

  lemma SshLaunchExtends(w: World, o: Oracle, cmd: string, stdout: Sink, host: string)
    ensures Extends(w, SshLaunchSpec(w, o, cmd, stdout, host).world)
  {
    SshLaunchShape(w, o, cmd, stdout, host);
    var r := SshLaunchSpec(w, o, cmd, stdout, host);
    if r.result.Ok? {
      AppendExtends(w, r.world.env, [Spawn(SshArgv(cmd, GenomPathSpec(w).result.value, host), stdout)]);
    }
  }

  /** `start` only appends to the trace, leaves the registry alone, and holds
      either its old multiplexer handle or one for a process it just spawned. */
  lemma StartShape(s: Supervisor, w: World, o: Oracle, host: string)
    ensures var r := StartStep(s, w, o, host);
      && Extends(w, r.world)
      && r.sup.components == s.components
      && (r.sup.tclserv == s.tclserv ||
          (r.sup.tclserv.Some? && |w.events| <= r.sup.tclserv.value.pid < |r.world.events|
           && r.world.events[r.sup.tclserv.value.pid].Spawn?))
  {
    var k := KillallSpec(w, o, host, "tclserv");
    SshLaunchExtends(w, o, "killall " + host, Pipe, Localhost);
    if k.result.Ok? {
      var init := SshLaunchSpec(k.world, o, H2Cmd + " init", File(host), Localhost);
      SshLaunchExtends(k.world, o, H2Cmd + " init", File(host), Localhost);
      ExtendsTransitive(w, k.world, init.world);
      if init.result.Ok? {
        var fed := World(init.world.env, init.world.events + [Feed(init.result.value.pid, "y\n")]);
        AppendExtends(init.world, init.world.env, [Feed(init.result.value.pid, "y\n")]);
        ExtendsTransitive(w, init.world, fed);
        SshLaunchShape(fed, o, TclservCmd, File(host), Localhost);
        SshLaunchExtends(fed, o, TclservCmd, File(host), Localhost);
        ExtendsTransitive(w, fed, SshLaunchSpec(fed, o, TclservCmd, File(host), Localhost).world);
      }
    }
  }

  /** `startComponent` only appends to the trace, leaves `started` and
      `tclserv` alone, and either keeps the registry or maps the component's
      key to a process it just launched with the component's own command line. */
  lemma StartComponentShape(s: Supervisor, w: World, o: Oracle, component: string, host: string)
    ensures var r := StartComponentStep(s, w, o, component, host);
      && Extends(w, r.world)
      && r.sup.started == s.started && r.sup.tclserv == s.tclserv
      && (r.outcome.Fail? ==> r.sup.components == s.components)
      && (r.outcome.Pass? ==>
            && RegistryKey(host, component) in r.sup.components
            && var p := r.sup.components[RegistryKey(host, component)];
            && r.sup.components == s.components[RegistryKey(host, component) := p]
            && |w.events| <= p.pid < |r.world.events|
            && exists genomPath ::
                 r.world.events[p.pid] == Spawn(SshArgv(component, genomPath, host), File(LogPath(component))))
  {
    var r := StartComponentStep(s, w, o, component, host);
    var k := KillallSpec(w, o, component, host);
    SshLaunchExtends(w, o, "killall " + component, Pipe, Localhost);
    if k.result.Err? {
      assert r == Step(s, k.world, Fail(k.result.error));
      return;
    }
    var m := KillmoduleSpec(k.world, o, component, host);
    SshLaunchExtends(k.world, o, KillmoduleCmd + " " + Basename(component), File(host), Localhost);
    ExtendsTransitive(w, k.world, m.world);
    if m.result.Err? {
      assert r == Step(s, m.world, Fail(m.result.error));
      return;
    }
    var l := SshLaunchSpec(m.world, o, component, File(LogPath(component)), host);
    SshLaunchExtends(m.world, o, component, File(LogPath(component)), host);
    ExtendsTransitive(w, m.world, l.world);
    if l.result.Err? {
      assert r == Step(s, l.world, Fail(l.result.error));
      return;
    }
    var p := l.result.value;
    if Truthy(p.returncode) {
      assert r == Step(s, l.world, Fail(ComponentStartFailed(component, p.returncode.value)));
      return;
    }
    assert r == Step(s.(components := s.components[RegistryKey(host, component) := p]), l.world, Pass);
    SshLaunchShape(m.world, o, component, File(LogPath(component)), host);
    var genomPath := GenomPathSpec(m.world).result.value;
    assert l.world.events[p.pid] == Spawn(SshArgv(component, genomPath, host), File(LogPath(component)));
  }

  /** `stopComponent` only appends to the trace, leaves `started` and
      `tclserv` alone, and keeps every registry entry on the same process. */
  lemma StopComponentShape(s: Supervisor, w: World, o: Oracle, component: string, host: string)
    ensures var r := StopComponentStep(s, w, o, component, host);
      && Extends(w, r.world)
      && r.sup.started == s.started && r.sup.tclserv == s.tclserv
      && r.sup.components.Keys == s.components.Keys
      && (forall key :: key in s.components ==> r.sup.components[key].pid == s.components[key].pid)
      && (forall key :: key in s.components && key != RegistryKey(host, component) ==>
            r.sup.components[key] == s.components[key])
  {
    var key := RegistryKey(host, component);
    var m := KillmoduleSpec(w, o, key, Localhost);
    SshLaunchExtends(w, o, KillmoduleCmd + " " + Basename(key), File(Localhost), Localhost);
    if m.result.Ok? && m.result.value == 0 && key in s.components {
      var p := s.components[key];
      AppendExtends(m.world, m.world.env, [Signal(p.pid, Term), Signal(p.pid, Kill)]);
      ExtendsTransitive(w, m.world, World(m.world.env, m.world.events + [Signal(p.pid, Term), Signal(p.pid, Kill)]));
    }
  }

  /** `terminate` changes no field and only appends to the trace. */
  lemma TerminateShape(s: Supervisor, w: World, o: Oracle)
    ensures TerminateStep(s, w, o).sup == s && Extends(w, TerminateStep(s, w, o).world)
  {
    var r := TerminateStep(s, w, o);
    var signals := if s.tclserv.Some? then [Signal(s.tclserv.value.pid, Term), Signal(s.tclserv.value.pid, Kill)] else [];
    var calls := r.world.events[|w.events| + |signals|..];
    assert r.world.events == w.events + (signals + calls);
    AppendExtends(w, r.world.env, signals + calls);
  }

  lemma KeptWhenExtended(s: Supervisor, w: World, w': World)
    requires Registered(s, w) && Extends(w, w')
    ensures Registered(s, w')
  {
    forall key | key in s.components
      ensures LaunchedAs(w', key, s.components[key])
    {
      var p := s.components[key];
      assert LaunchedAs(w, key, p);
      assert w'.events[p.pid] == w'.events[..|w.events|][p.pid];
      var host, component, genomPath :| key == RegistryKey(host, component)
        && w.events[p.pid] == Spawn(SshArgv(component, genomPath, host), File(LogPath(component)));
    }
    if s.tclserv.Some? {
      assert w'.events[s.tclserv.value.pid] == w'.events[..|w.events|][s.tclserv.value.pid];
    }
  }

  lemma StartKeepsRegistered(s: Supervisor, w: World, o: Oracle, host: string)
    requires Registered(s, w)
    ensures Registered(StartStep(s, w, o, host).sup, StartStep(s, w, o, host).world)
  {
    var r := StartStep(s, w, o, host);
    StartShape(s, w, o, host);
    KeptWhenExtended(s, w, r.world);
    if r.sup.tclserv != s.tclserv {
      forall key | key in s.components
        ensures s.components[key].pid != r.sup.tclserv.value.pid
      {
        assert LaunchedAs(w, key, s.components[key]);
      }
    }
  }

  lemma StartComponentKeepsRegistered(s: Supervisor, w: World, o: Oracle, component: string, host: string)
    requires Registered(s, w)
    ensures Registered(StartComponentStep(s, w, o, component, host).sup,
                       StartComponentStep(s, w, o, component, host).world)
  {
    var r := StartComponentStep(s, w, o, component, host);
    StartComponentShape(s, w, o, component, host);
    KeptWhenExtended(s, w, r.world);
    if r.outcome.Pass? {
      var key := RegistryKey(host, component);
      var p := r.sup.components[key];
      forall k | k in s.components
        ensures s.components[k].pid < |w.events|
      {
        assert LaunchedAs(w, k, s.components[k]);
      }
      var genomPath :| r.world.events[p.pid] == Spawn(SshArgv(component, genomPath, host), File(LogPath(component)));
      assert LaunchedAs(r.world, key, p);
    }
  }

  lemma StopComponentKeepsRegistered(s: Supervisor, w: World, o: Oracle, component: string, host: string)
    requires Registered(s, w)
    ensures Registered(StopComponentStep(s, w, o, component, host).sup,
                       StopComponentStep(s, w, o, component, host).world)
  {
    var r := StopComponentStep(s, w, o, component, host);
    StopComponentShape(s, w, o, component, host);
    KeptWhenExtended(s, w, r.world);
    forall key | key in r.sup.components
      ensures LaunchedAs(r.world, key, r.sup.components[key])
    {
      assert LaunchedAs(r.world, key, s.components[key]);
    }
  }

  lemma TerminateKeepsRegistered(s: Supervisor, w: World, o: Oracle)
    requires Registered(s, w)
    ensures Registered(TerminateStep(s, w, o).sup, TerminateStep(s, w, o).world)
  {
    TerminateShape(s, w, o);
    KeptWhenExtended(s, w, TerminateStep(s, w, o).world);
  }

  // ---------------------------------------------------------------------------
  // Lemmas: what each step sends to the machine and what it changes

  /** `start(host)`. When the GenoM path cannot be resolved, `killall` raises
      before anything is spawned. Otherwise the steps are: `killall <host>`
      (the program name and the host are swapped), then `h2 init` on the
      local host with its output in a file named after `host`, answered with
      "y". If `h2 init` fails, `start` raises with no field changed.
      Otherwise `tclserv` is launched the same way and its handle replaces
      the old one even when it failed; only a successful start marks `host`
      as started. */
  lemma StartTrace(s: Supervisor, w: World, o: Oracle, host: string)
    ensures GenomPathSpec(w).result.Err? ==> StartStep(s, w, o, host) == Step(s, w, Fail(PathUnset))
    ensures GenomPathSpec(w).result.Ok? ==>
      var r, n := StartStep(s, w, o, host), |w.events|;
      var genomPath, env := GenomPathSpec(w).result.value, GenomPathSpec(w).world.env;
      var init := w.events + [Spawn(SshArgv("killall " + host, genomPath, Localhost), Pipe),
                              Spawn(SshArgv("h2 init", genomPath, Localhost), File(host)),
                              Feed(n + 1, "y\n")];
      var status := WaitStatus(o, Handle(n + 1, o.early(n + 1)));
      var t := Handle(n + 3, o.early(n + 3));
      && (status != 0 ==> r == Step(s, World(env, init), Fail(H2InitFailed(status))))
      && (status == 0 ==>
            && r.world == World(env, init + [Spawn(SshArgv(TclservCmd, genomPath, Localhost), File(host))])
            && r.sup.tclserv == Some(t) && r.sup.components == s.components
            && (Truthy(t.returncode) ==>
                  r.sup.started == s.started && r.outcome == Fail(TclservFailed(t.returncode.value)))
            && (!Truthy(t.returncode) ==> r.sup.started == s.started[host := true] && r.outcome == Pass))
  {
    GenomPathResolves(w);
    var r := StartStep(s, w, o, host);
    var g := GenomPathSpec(w);
    if g.result.Err? {
      assert KillallSpec(w, o, host, "tclserv") == After(w, Err(PathUnset));
      return;
    }
    var genomPath := g.result.value;
    var k := KillallSpec(w, o, host, "tclserv");
    SshCallResolved(w, o, "killall " + host, Pipe, Localhost, genomPath);
    GenomPathStable(w, k.world);
    var init := SshLaunchSpec(k.world, o, H2Cmd + " init", File(host), Localhost);
    SshLaunchResolved(k.world, o, H2Cmd + " init", File(host), Localhost, genomPath);
    var p := init.result.value;
    var fed := World(init.world.env, init.world.events + [Feed(p.pid, "y\n")]);
    assert H2Cmd + " init" == "h2 init";
    assert fed.events == w.events + [Spawn(SshArgv("killall " + host, genomPath, Localhost), Pipe),
                                     Spawn(SshArgv("h2 init", genomPath, Localhost), File(host)),
                                     Feed(|w.events| + 1, "y\n")];
    if WaitStatus(o, p) != 0 {
      assert r == Step(s, fed, Fail(H2InitFailed(WaitStatus(o, p))));
      return;
    }
    GenomPathStable(w, fed);
    var t := SshLaunchSpec(fed, o, TclservCmd, File(host), Localhost);
    SshLaunchResolved(fed, o, TclservCmd, File(host), Localhost, genomPath);
    assert t.result.value == Handle(|w.events| + 3, o.early(|w.events| + 3));
    if Truthy(t.result.value.returncode) {
      assert r == Step(s.(tclserv := Some(t.result.value)), t.world, Fail(TclservFailed(t.result.value.returncode.value)));
    } else {
      assert r == Step(s.(tclserv := Some(t.result.value), started := s.started[host := true]), t.world, Pass);
    }
  }

  /** A start that passes holds a multiplexer handle and marks its host. */
  lemma StartPassHolds(s: Supervisor, w: World, o: Oracle, host: string)
    requires StartStep(s, w, o, host).outcome.Pass?
    ensures StartStep(s, w, o, host).sup.tclserv.Some?
    ensures host in StartStep(s, w, o, host).sup.started && StartStep(s, w, o, host).sup.started[host]
  {
    StartTrace(s, w, o, host);
  }

  /** `start` never signals a process: a multiplexer it replaces keeps running. */
  lemma StartNeverSignals(s: Supervisor, w: World, o: Oracle, host: string)
    ensures var r := StartStep(s, w, o, host);
            forall i :: |w.events| <= i < |r.world.events| ==> !r.world.events[i].Signal?
  {
    StartTrace(s, w, o, host);
  }

  /** Starting twice, as the class's own example does, runs the whole
      sequence again: the second call spawns a fresh `killall` and, when it
      succeeds, holds a different multiplexer process, while the first one
      was never signalled. */
  lemma StartTwice(s: Supervisor, w: World, o: Oracle, host: string)
    requires StartStep(s, w, o, host).outcome.Pass?
    ensures var r1 := StartStep(s, w, o, host);
            var r2 := StartStep(r1.sup, r1.world, o, host);
            var first := r1.sup.tclserv.value.pid;
            && |r1.world.events| < |r2.world.events|
            && r2.world.events[|r1.world.events|].Spawn?
            && r2.world.events[|r1.world.events|].argv[3] == ShellLine("killall " + host, GenomPathSpec(w).result.value)
            && (r2.outcome.Pass? ==> r2.sup.tclserv.value.pid != first && r2.sup.started[host])
            && (forall i :: |w.events| <= i < |r2.world.events| ==> r2.world.events[i] != Signal(first, Term))
  {
    var r1 := StartStep(s, w, o, host);
    StartTrace(s, w, o, host);
    GenomPathResolves(w);
    var genomPath := GenomPathSpec(w).result.value;
    GenomPathStable(w, r1.world);
    StartTrace(r1.sup, r1.world, o, host);
    StartNeverSignals(s, w, o, host);
    StartNeverSignals(r1.sup, r1.world, o, host);
    var r2 := StartStep(r1.sup, r1.world, o, host);
    forall i | |w.events| <= i < |r2.world.events|
      ensures r2.world.events[i] != Signal(r1.sup.tclserv.value.pid, Term)
    {
      if i < |r1.world.events| {
        assert r2.world.events[i] == r1.world.events[i];
      }
    }
  }

  /** `startComponent(component, host)`. When the GenoM path cannot be
      resolved, it raises before anything is spawned. Otherwise it runs
      `killall <component>` and `killmodule <basename>` on the local host
      (their statuses are ignored, and the killmodule output goes to a file
      named after `host`), then launches the component on `host` with its
      output in `/tmp/<component>.log`. A set return code raises with no
      field changed; otherwise the handle is stored under
      `host + "/" + component`, replacing any earlier one, and no other entry,
      `started` or `tclserv` changes. */
  lemma StartComponentTrace(s: Supervisor, w: World, o: Oracle, component: string, host: string)
    ensures GenomPathSpec(w).result.Err? ==>
              StartComponentStep(s, w, o, component, host) == Step(s, w, Fail(PathUnset))
    ensures GenomPathSpec(w).result.Ok? ==>
      var r, n := StartComponentStep(s, w, o, component, host), |w.events|;
      var genomPath, env := GenomPathSpec(w).result.value, GenomPathSpec(w).world.env;
      var p := Handle(n + 2, o.early(n + 2));
      && r.world == World(env, w.events + [
           Spawn(SshArgv("killall " + component, genomPath, Localhost), Pipe),
           Spawn(SshArgv("killmodule " + Basename(component), genomPath, Localhost), File(host)),
           Spawn(SshArgv(component, genomPath, host), File(LogPath(component)))])
      && (Truthy(p.returncode) ==> r.sup == s && r.outcome == Fail(ComponentStartFailed(component, p.returncode.value)))
      && (!Truthy(p.returncode) ==>
            r.sup == s.(components := s.components[RegistryKey(host, component) := p]) && r.outcome == Pass)
  {
    GenomPathResolves(w);
    var r := StartComponentStep(s, w, o, component, host);
    var g := GenomPathSpec(w);
    if g.result.Err? {
      assert KillallSpec(w, o, component, host) == After(w, Err(PathUnset));
      return;
    }
    var genomPath := g.result.value;
    var k := KillallSpec(w, o, component, host);
    SshCallResolved(w, o, "killall " + component, Pipe, Localhost, genomPath);
    GenomPathStable(w, k.world);
    var m := KillmoduleSpec(k.world, o, component, host);
    SshCallResolved(k.world, o, KillmoduleCmd + " " + Basename(component), File(host), Localhost, genomPath);
    GenomPathStable(w, m.world);
    var l := SshLaunchSpec(m.world, o, component, File(LogPath(component)), host);
    SshLaunchResolved(m.world, o, component, File(LogPath(component)), host, genomPath);
    var p := l.result.value;
    assert p == Handle(|w.events| + 2, o.early(|w.events| + 2));
    assert KillmoduleCmd + " " + Basename(component) == "killmodule " + Basename(component);
    assert l.world.events == w.events + [
      Spawn(SshArgv("killall " + component, genomPath, Localhost), Pipe),
      Spawn(SshArgv("killmodule " + Basename(component), genomPath, Localhost), File(host)),
      Spawn(SshArgv(component, genomPath, host), File(LogPath(component)))];
    if Truthy(p.returncode) {
      assert r == Step(s, l.world, Fail(ComponentStartFailed(component, p.returncode.value)));
    } else {
      assert r == Step(s.(components := s.components[RegistryKey(host, component) := p]), l.world, Pass);
    }
  }

  /** `startComponent` never reads `started`: whether the runtime was
      started on a host makes no difference to what it does. */
  lemma StartComponentIgnoresStarted(s: Supervisor, w: World, o: Oracle, component: string, host: string,
                                     started: map<string, bool>)
    ensures var r := StartComponentStep(s, w, o, component, host);
            var r' := StartComponentStep(s.(started := started), w, o, component, host);
            r'.world == r.world && r'.outcome == r.outcome && r'.sup == r.sup.(started := started)
  {
    StartComponentTrace(s, w, o, component, host);
    StartComponentTrace(s.(started := started), w, o, component, host);
  }

  /** Starting the same component twice, as the class's own example does,
      leaves one registry entry: the second process's handle. */
  lemma StartComponentTwice(s: Supervisor, w: World, o: Oracle, component: string, host: string)
    requires StartComponentStep(s, w, o, component, host).outcome.Pass?
    requires var r1 := StartComponentStep(s, w, o, component, host);
             StartComponentStep(r1.sup, r1.world, o, component, host).outcome.Pass?
    ensures var r1 := StartComponentStep(s, w, o, component, host);
            var r2 := StartComponentStep(r1.sup, r1.world, o, component, host);
            var key := RegistryKey(host, component);
            && r2.sup.components.Keys == s.components.Keys + {key}
            && r2.sup.components[key].pid == |r1.world.events| + 2
            && r2.sup.components[key].pid != r1.sup.components[key].pid
  {
    var r1 := StartComponentStep(s, w, o, component, host);
    StartComponentTrace(s, w, o, component, host);
    GenomPathResolves(w);
    GenomPathStable(w, r1.world);
    StartComponentTrace(r1.sup, r1.world, o, component, host);
  }

  /** `stopComponent(component, host)`. When the GenoM path cannot be
      resolved, it raises with nothing changed. Otherwise it sends
      `killmodule <basename of component>` to the local host, with output in
      a file named "localhost"; a non-zero status raises before the registry
      is looked at, and a missing `host + "/" + component` entry raises
      next. Otherwise the process is terminated and killed only when its
      recorded return code is set and non-zero, then waited for; its exit
      status is recorded in the entry, which stays in the registry, and a
      non-zero status raises. */
  lemma StopComponentTrace(s: Supervisor, w: World, o: Oracle, component: string, host: string)
    ensures GenomPathSpec(w).result.Err? ==>
              StopComponentStep(s, w, o, component, host) == Step(s, w, Fail(PathUnset))
    ensures GenomPathSpec(w).result.Ok? ==>
      var r, n, key := StopComponentStep(s, w, o, component, host), |w.events|, RegistryKey(host, component);
      var genomPath, env := GenomPathSpec(w).result.value, GenomPathSpec(w).world.env;
      var killed := w.events + [Spawn(SshArgv("killmodule " + Basename(component), genomPath, Localhost), File(Localhost))];
      var st := WaitStatus(o, Handle(n, o.early(n)));
      && (st != 0 ==> r == Step(s, World(env, killed), Fail(ComponentStopFailed(component, st))))
      && (st == 0 && key !in s.components ==> r == Step(s, World(env, killed), Fail(NoSuchComponent(key))))
      && (st == 0 && key in s.components ==>
            var p := s.components[key];
            var status := WaitStatus(o, p);
            && r.world == World(env, if Truthy(p.returncode) then killed + [Signal(p.pid, Term), Signal(p.pid, Kill)] else killed)
            && r.sup == s.(components := s.components[key := p.(returncode := Some(status))])
            && r.outcome == if status == 0 then Pass else Fail(ComponentExitFailed(component, status)))
  {
    GenomPathResolves(w);
    var key := RegistryKey(host, component);
    var g := GenomPathSpec(w);
    if g.result.Err? {
      return;
    }
    BasenameAfterSlash(host, component);
    assert KillmoduleCmd + " " + Basename(key) == "killmodule " + Basename(component);
    var m := KillmoduleSpec(w, o, key, Localhost);
    SshCallResolved(w, o, KillmoduleCmd + " " + Basename(key), File(Localhost), Localhost, g.result.value);
    if m.result.value == 0 && key in s.components {
      var p := s.components[key];
      assert m.world.events + [Signal(p.pid, Term)] + [Signal(p.pid, Kill)]
          == m.world.events + [Signal(p.pid, Term), Signal(p.pid, Kill)];
    }
  }

  /** A component started on a host is found by a later `stopComponent` of
      the same component on the same host: the two build the same key. */
  lemma StartThenStopFindsEntry(s: Supervisor, w: World, o: Oracle, component: string, host: string)
    requires StartComponentStep(s, w, o, component, host).outcome.Pass?
    ensures var r1 := StartComponentStep(s, w, o, component, host);
            StopComponentStep(r1.sup, r1.world, o, component, host).outcome
              != Fail(NoSuchComponent(RegistryKey(host, component)))
  {
    var r1 := StartComponentStep(s, w, o, component, host);
    StartComponentShape(s, w, o, component, host);
    GenomPathResolves(w);
    StartComponentTrace(s, w, o, component, host);
    GenomPathStable(w, r1.world);
    StopComponentTrace(r1.sup, r1.world, o, component, host);
  }

  /** Under the registry invariant, stopping a component never signals the
      multiplexer: the only process `stopComponent` signals is a registry
      entry, and no entry shares the multiplexer's process. */
  lemma StopNeverSignalsMultiplexer(s: Supervisor, w: World, o: Oracle, component: string, host: string)
    requires Registered(s, w) && s.tclserv.Some?
    ensures var r, pid := StopComponentStep(s, w, o, component, host), s.tclserv.value.pid;
            forall i :: |w.events| <= i < |r.world.events| ==>
              r.world.events[i] != Signal(pid, Term) && r.world.events[i] != Signal(pid, Kill)
  {
    StopComponentTrace(s, w, o, component, host);
  }

  /** `terminate()`. The multiplexer is terminated and killed only when a
      handle is held; `h2 info` is run locally, and `h2 end` only when it
      does not report 3; only a failing `h2 end` raises. No field changes. */
  lemma TerminateTrace(s: Supervisor, w: World, o: Oracle)
    ensures var r := TerminateStep(s, w, o);
      var signals := if s.tclserv.Some? then [Signal(s.tclserv.value.pid, Term), Signal(s.tclserv.value.pid, Kill)] else [];
      var info := |w.events| + |signals|;
      var asked := w.events + signals + [Spawn(["h2", "info"], Pipe)];
      && r.sup == s
      && (WaitStatus(o, Handle(info, o.early(info))) == 3 ==> r.world == World(w.env, asked) && r.outcome == Pass)
      && (WaitStatus(o, Handle(info, o.early(info))) != 3 ==>
            var status := WaitStatus(o, Handle(info + 1, o.early(info + 1)));
            && r.world == World(w.env, asked + [Spawn(["h2", "end"], Pipe)])
            && r.outcome == if status == 0 then Pass else Fail(H2EndFailed(status)))
  {
    if s.tclserv.Some? {
      var t := s.tclserv.value;
      assert w.events + [Signal(t.pid, Term)] + [Signal(t.pid, Kill)] == w.events + [Signal(t.pid, Term), Signal(t.pid, Kill)];
    } else {
      assert w.events + [] == w.events;
    }
  }

  /** Calling `terminate` twice, as the class's own example does, is allowed:
      the second call finds the same fields and signals the same multiplexer
      process again. */
  lemma TerminateTwice(s: Supervisor, w: World, o: Oracle)
    ensures var r1 := TerminateStep(s, w, o);
            var r2 := TerminateStep(r1.sup, r1.world, o);
            && r2.sup == s
            && (s.tclserv.Some? ==> r2.world.events[|r1.world.events|] == Signal(s.tclserv.value.pid, Term))
  {
    TerminateTrace(s, w, o);
    TerminateTrace(TerminateStep(s, w, o).sup, TerminateStep(s, w, o).world, o);
  }

  /** The supervisor writes no environment variable except GENOM_PATH. */
  lemma StepsKeepEnvironment(s: Supervisor, w: World, o: Oracle, component: string, host: string)
    ensures SameExceptGenomPath(w.env, StartStep(s, w, o, host).world.env)
    ensures SameExceptGenomPath(w.env, StartComponentStep(s, w, o, component, host).world.env)
    ensures SameExceptGenomPath(w.env, StopComponentStep(s, w, o, component, host).world.env)
    ensures TerminateStep(s, w, o).world.env == w.env
  {
    GenomPathResolves(w);
    StartTrace(s, w, o, host);
    StartComponentTrace(s, w, o, component, host);
    StopComponentTrace(s, w, o, component, host);
    TerminateTrace(s, w, o);
  }
}
