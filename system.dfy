/**
 * The machine the supervisor drives: its environment variables, the processes
 * it has been asked to spawn or signal (in order), a clock that `time.sleep`
 * advances, and an oracle standing for everything the supervisor cannot see
 * (how each process exits, which files exist at each tick, the host name).
 */
module System {
  import opened Wrappers

  /** Where a child's standard output goes: a pipe back to the parent
      (`subprocess.PIPE`) or a file opened for writing under the given name. */
  datatype Sink = Pipe | File(path: string)

  datatype Sig = Term | Kill

  /** One request made to the operating system. A `Spawn` always pipes the
      child's standard input and merges its standard error into `stdout`. */
  datatype Event =
    | Spawn(argv: seq<string>, stdout: Sink)
    | Feed(pid: nat, input: string)
    | Signal(pid: nat, sig: Sig)

  /** A `subprocess.Popen` object: `pid` is the position of its `Spawn` event
      in the trace, `returncode` is `None` until the exit status is known. */
  datatype Handle = Handle(pid: nat, returncode: Option<int>)

  /** What the rest of the machine answers. */
  datatype Oracle = Oracle(
    exitStatus: nat -> int,        // the status the process `pid` exits with
    early: nat -> Option<int>,     // `returncode` of process `pid` right after it was spawned
    files: nat -> set<string>,     // the paths that exist at each clock tick
    hostname: string)              // `socket.gethostname()`

  /** The state the supervisor's operations change: the environment and the trace. */
  datatype World = World(env: map<string, string>, events: seq<Event>)

  /** The status `Popen.wait()` returns: the recorded `returncode` if there is one,
      otherwise the status the process exits with. */
  function WaitStatus(o: Oracle, p: Handle): (status: int)
    ensures p.returncode.None? ==> status == o.exitStatus(p.pid)
    ensures p.returncode.Some? ==> status == p.returncode.value
  {
    match p.returncode
    case Some(code) => code
    case None => o.exitStatus(p.pid)
  }

  /** Python's truthiness of `p.returncode`: set and non-zero. */
  predicate Truthy(code: Option<int>) {
    code.Some? && code.value != 0
  }

  class Os {
    var env: map<string, string>
    var events: seq<Event>
    var now: nat
    const oracle: Oracle

    constructor (env: map<string, string>, oracle: Oracle)
      ensures this.env == env && this.oracle == oracle
      ensures events == [] && now == 0
    {
      this.env := env;
      this.oracle := oracle;
      events := [];
      now := 0;
    }

    function Snapshot(): World
      reads this
    {
      World(env, events)
    }

    /** `subprocess.Popen(argv, stdin=PIPE, stdout=stdout, stderr=STDOUT)`. */
    method Popen(argv: seq<string>, stdout: Sink) returns (p: Handle)
      modifies this`events
      ensures events == old(events) + [Spawn(argv, stdout)]
      ensures p == Handle(|old(events)|, oracle.early(|old(events)|))
    {
      p := Handle(|events|, oracle.early(|events|));
      events := events + [Spawn(argv, stdout)];
    }

    /** `p.communicate(input)`: writes `input` to the child and waits for it. */
    method Communicate(p: Handle, input: string) returns (q: Handle)
      modifies this`events
      ensures events == old(events) + [Feed(p.pid, input)]
      ensures q == p.(returncode := Some(WaitStatus(oracle, p)))
    {
      events := events + [Feed(p.pid, input)];
      q := p.(returncode := Some(WaitStatus(oracle, p)));
    }

    /** `p.wait()`: returns the exit status and records it in the handle. */
    method Wait(p: Handle) returns (status: int, q: Handle)
      ensures status == WaitStatus(oracle, p)
      ensures q == p.(returncode := Some(status))
    {
      status := WaitStatus(oracle, p);
      q := p.(returncode := Some(status));
    }

    /** `p.terminate()` or `p.kill()`. */
    method SendSignal(p: Handle, sig: Sig)
      modifies this`events
      ensures events == old(events) + [Signal(p.pid, sig)]
    {
      events := events + [Signal(p.pid, sig)];
    }

    /** `os.getenv(name)`. */
    method GetEnv(name: string) returns (v: Option<string>)
      ensures v == if name in env then Some(env[name]) else None
    {
      v := if name in env then Some(env[name]) else None;
    }

    /** `os.environ[name] = value`. */
    method PutEnv(name: string, value: string)
      modifies this`env
      ensures env == old(env)[name := value]
    {
      env := env[name := value];
    }

    /** `os.access(path, os.F_OK)`. */
    method Access(path: string) returns (exists_: bool)
      ensures exists_ == (path in oracle.files(now))
    {
      exists_ := path in oracle.files(now);
    }

    /** `socket.gethostname()`. */
    method GetHostname() returns (name: string)
      ensures name == oracle.hostname
    {
      name := oracle.hostname;
    }

    /** `time.sleep(0.1)`: one clock tick. */
    method Sleep()
      modifies this`now
      ensures now == old(now) + 1
    {
      now := now + 1;
    }
  }
}
