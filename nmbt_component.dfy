/**
 * The model-based tracker component: the bracket that starts the `nmbt`
 * component under a GenoM supervisor, waits for its readiness marker, and
 * stops it again, and the module's own test, which nests it inside a `viam`
 * bracket inside a supervisor bracket.
 */
module NmbtComponent {
  import opened Wrappers
  import opened System
  import opened GenomShell
  import opened Genom
  import opened ViamComponent

  const NmbtName: string := "nmbt"

  /** An `Nmbt` object: the supervisor it starts and stops `nmbt` with. */
  class Nmbt {
    const genom: Genom

    constructor (genom: Genom)
      ensures this.genom == genom
    {
      this.genom := genom;
    }

    /** `start`: start `nmbt` on the local host. */
    method Start(os: Os) returns (r: Outcome<Error>)
      requires genom.Valid(os)
      modifies genom, os`env, os`events
      ensures genom.Valid(os)
      ensures Step(genom.State(), os.Snapshot(), r) ==
                StartComponentStep(old(genom.State()), old(os.Snapshot()), os.oracle, NmbtName, Localhost)
      ensures genom.history == old(genom.history) + [StartComponentRequest(NmbtName, Localhost)]
    {
      r := genom.StartComponent(os, NmbtName, Localhost);
    }

    /** `stop`: stop `nmbt` on the local host. */
    method Stop(os: Os) returns (r: Outcome<Error>)
      requires genom.Valid(os)
      modifies genom, os`env, os`events
      ensures genom.Valid(os)
      ensures Step(genom.State(), os.Snapshot(), r) ==
                StopComponentStep(old(genom.State()), old(os.Snapshot()), os.oracle, NmbtName, Localhost)
      ensures genom.history == old(genom.history) + [StopComponentRequest(NmbtName, Localhost)]
    {
      r := genom.StopComponent(os, NmbtName, Localhost);
    }

    /** `__enter__`: start `nmbt`, then wait for its marker. A failed start
        raises before any polling; with HOME unset the first probe raises. */
    method Enter(os: Os) returns (r: Result<Nmbt, Error>)
      requires genom.Valid(os)
      requires MarkerEventually(os, NmbtName)
      modifies genom, os`env, os`events, os`now
      ensures genom.Valid(os)
      ensures var st := StartComponentStep(old(genom.State()), old(os.Snapshot()), os.oracle, NmbtName, Localhost);
              && genom.State() == st.sup && os.Snapshot() == st.world
              && (st.outcome.Fail? ==> r == Err(st.outcome.error) && os.now == old(os.now))
              && (st.outcome.Pass? && HomeVar !in os.env ==> r == Err(HomeUnset) && os.now == old(os.now))
              && (st.outcome.Pass? && HomeVar in os.env ==>
                    && r == Ok(this) && old(os.now) <= os.now && MarkerAt(os, NmbtName, os.now)
                    && forall t :: old(os.now) <= t < os.now ==> !MarkerAt(os, NmbtName, t))
      ensures SameExceptGenomPath(old(os.env), os.env)
      ensures genom.history == old(genom.history) + [StartComponentRequest(NmbtName, Localhost)]
    {
      StepsKeepEnvironment(genom.State(), os.Snapshot(), os.oracle, NmbtName, Localhost);
      ghost var env0 := os.env;
      var s := Start(os);
      if s.Fail? {
        return Err(s.error);
      }
      assert HomeVar != GenomPathVar;
      assert HomeVar in env0 ==> os.env[HomeVar] == env0[HomeVar];
      var ready := AwaitReady(os, NmbtName);
      if ready.Fail? {
        return Err(ready.error);
      }
      r := Ok(this);
    }

    /** `__exit__`: stop `nmbt`, then return this object, which is truthy:
        an exception raised in the bracket's body is suppressed. */
    method Exit(os: Os) returns (r: Result<bool, Error>)
      requires genom.Valid(os)
      modifies genom, os`env, os`events
      ensures genom.Valid(os)
      ensures var st := StopComponentStep(old(genom.State()), old(os.Snapshot()), os.oracle, NmbtName, Localhost);
              && genom.State() == st.sup && os.Snapshot() == st.world
              && r == (if st.outcome.Pass? then Ok(true) else Err(st.outcome.error))
      ensures SameExceptGenomPath(old(os.env), os.env)
      ensures genom.history == old(genom.history) + [StopComponentRequest(NmbtName, Localhost)]
    {
      StepsKeepEnvironment(genom.State(), os.Snapshot(), os.oracle, NmbtName, Localhost);
      var s := Stop(os);
      r := if s.Pass? then Ok(true) else Err(s.error);
    }
  }

  /** The innermost `with Nmbt(g) as nmbt:` bracket of the module's own test.
      Its body catches every exception itself; `__exit__` runs only when
      `__enter__` returned. */
  method NmbtBracket(g: Genom, os: Os) returns (entered: bool)
    requires g.Valid(os)
    requires MarkerEventually(os, NmbtName)
    modifies g, os`env, os`events, os`now
    ensures g.Valid(os)
    ensures entered == (StartComponentStep(old(g.State()), old(os.Snapshot()), os.oracle, NmbtName, Localhost).outcome.Pass?
                        && HomeVar in old(os.env))
    ensures g.history == old(g.history) + [StartComponentRequest(NmbtName, Localhost)]
                         + (if entered then [StopComponentRequest(NmbtName, Localhost)] else [])
    ensures g.tclserv == old(g.tclserv)
    ensures Extends(old(os.Snapshot()), os.Snapshot())
    ensures SameExceptGenomPath(old(os.env), os.env)
  {
    ghost var w0 := os.Snapshot();
    ghost var sc := StartComponentStep(g.State(), w0, os.oracle, NmbtName, Localhost);
    StartComponentShape(g.State(), w0, os.oracle, NmbtName, Localhost);
    var n := new Nmbt(g);
    var inner := n.Enter(os);
    entered := inner.Ok?;
    if entered {
      StopComponentShape(sc.sup, sc.world, os.oracle, NmbtName, Localhost);
      ghost var env1 := os.env;
      var stopped := n.Exit(os);
      ExtendsTransitive(w0, sc.world, os.Snapshot());
      SameExceptTransitive(w0.env, env1, os.env);
    }
  }

  /** The lifecycle requests the middle bracket makes, by how far it got. */
  function ViamNmbtRequests(viamEntered: bool, nmbtEntered: bool): seq<Request> {
    if !viamEntered then [StartComponentRequest(ViamName, Localhost)]
    else if !nmbtEntered then
      [StartComponentRequest(ViamName, Localhost), StartComponentRequest(NmbtName, Localhost),
       StopComponentRequest(ViamName, Localhost)]
    else
      [StartComponentRequest(ViamName, Localhost), StartComponentRequest(NmbtName, Localhost),
       StopComponentRequest(NmbtName, Localhost), StopComponentRequest(ViamName, Localhost)]
  }

  lemma ViamNmbtHistory(h0: seq<Request>, h: seq<Request>, viamEntered: bool, nmbtEntered: bool)
    requires viamEntered ==>
               h == h0 + [StartComponentRequest(ViamName, Localhost)] + [StartComponentRequest(NmbtName, Localhost)]
                    + (if nmbtEntered then [StopComponentRequest(NmbtName, Localhost)] else [])
                    + [StopComponentRequest(ViamName, Localhost)]
    requires !viamEntered ==> h == h0 + [StartComponentRequest(ViamName, Localhost)] && !nmbtEntered
    ensures h == h0 + ViamNmbtRequests(viamEntered, nmbtEntered)
  {
  }

  /** The middle `with viam.Viam(g) as v:` bracket of the module's own test,
      whose body is the `nmbt` bracket. The `nmbt` marker must stay once
      written, since the clock has moved on while `viam` was awaited. */
  method ViamNmbtBracket(g: Genom, os: Os) returns (viamEntered: bool, nmbtEntered: bool)
    requires g.Valid(os)
    requires MarkerEventually(os, ViamName) && MarkerStays(os, NmbtName)
    modifies g, os`env, os`events, os`now
    ensures g.Valid(os)
    ensures var scv := StartComponentStep(old(g.State()), old(os.Snapshot()), os.oracle, ViamName, Localhost);
            var scn := StartComponentStep(scv.sup, scv.world, os.oracle, NmbtName, Localhost);
            && viamEntered == (scv.outcome.Pass? && HomeVar in old(os.env))
            && nmbtEntered == (viamEntered && scn.outcome.Pass?)
    ensures g.history == old(g.history) + ViamNmbtRequests(viamEntered, nmbtEntered)
    ensures g.tclserv == old(g.tclserv)
    ensures Extends(old(os.Snapshot()), os.Snapshot())
  {
    ghost var w0 := os.Snapshot();
    ghost var scv := StartComponentStep(g.State(), w0, os.oracle, ViamName, Localhost);
    StartComponentShape(g.State(), w0, os.oracle, ViamName, Localhost);
    ghost var stays: nat := 0;
    if HomeVar in os.env {
      stays :| PresentFrom(os.oracle, MarkerPath(os.env[HomeVar], NmbtName, os.oracle.hostname), stays);
    }
    var v := new Viam(g);
    var inner := v.Enter(os);
    viamEntered := inner.Ok?;
    nmbtEntered := false;
    if viamEntered {
      assert HomeVar != GenomPathVar;
      assert os.env[HomeVar] == w0.env[HomeVar];
      assert PresentFrom(os.oracle, MarkerPath(os.env[HomeVar], NmbtName, os.oracle.hostname), stays);
      MarkerStaysEventually(os, NmbtName);
      nmbtEntered := NmbtBracket(g, os);
      ghost var mid := os.Snapshot();
      StopComponentShape(g.State(), mid, os.oracle, ViamName, Localhost);
      var stopped := v.Exit(os);
      ExtendsTransitive(w0, scv.world, mid);
      ExtendsTransitive(w0, mid, os.Snapshot());
    }
    ViamNmbtHistory(old(g.history), g.history, viamEntered, nmbtEntered);
  }

  /** The requests of the module's own test, spelled out. */
  lemma NmbtTestHistory(h: seq<Request>, viamEntered: bool, nmbtEntered: bool)
    requires h == [StartRequest(Localhost)]
    ensures h + ViamNmbtRequests(viamEntered, nmbtEntered) + [TerminateRequest]
            == if !viamEntered then
                 [StartRequest(Localhost), StartComponentRequest(ViamName, Localhost), TerminateRequest]
               else if !nmbtEntered then
                 [StartRequest(Localhost), StartComponentRequest(ViamName, Localhost),
                  StartComponentRequest(NmbtName, Localhost), StopComponentRequest(ViamName, Localhost),
                  TerminateRequest]
               else
                 [StartRequest(Localhost), StartComponentRequest(ViamName, Localhost),
                  StartComponentRequest(NmbtName, Localhost), StopComponentRequest(NmbtName, Localhost),
                  StopComponentRequest(ViamName, Localhost), TerminateRequest]
  {
  }

  /** The module's own test. The environment path is built from HOME first,
      so with HOME unset it raises before anything starts. Otherwise a failed
      supervisor start raises before anything else; after it, `terminate`
      always runs and suppresses whatever the inner brackets raised, and
      only a failing `h2 end` can still escape. Components are stopped in
      the reverse of the order they were started in. */
  method BasicTest(os: Os) returns (r: Outcome<Error>, g: Genom?)
    requires MarkerEventually(os, ViamName) && MarkerStays(os, NmbtName)
    modifies os`env, os`events, os`now
    ensures HomeVar !in old(os.env) ==> r == Fail(HomeUnset) && g == null && unchanged(os)
    ensures HomeVar in old(os.env) ==> g != null && fresh(g)
    ensures HomeVar in old(os.env) ==>
            var st := StartStep(Idle, old(os.Snapshot()), os.oracle, Localhost);
            var scv := StartComponentStep(st.sup, st.world, os.oracle, ViamName, Localhost);
            var scn := StartComponentStep(scv.sup, scv.world, os.oracle, NmbtName, Localhost);
            && (st.outcome.Fail? ==>
                  r == st.outcome && g.history == [StartRequest(Localhost)] && os.Snapshot() == st.world)
            && (st.outcome.Pass? ==>
                  && g.history == (if scv.outcome.Fail? then
                                     [StartRequest(Localhost), StartComponentRequest(ViamName, Localhost),
                                      TerminateRequest]
                                   else if scn.outcome.Fail? then
                                     [StartRequest(Localhost), StartComponentRequest(ViamName, Localhost),
                                      StartComponentRequest(NmbtName, Localhost),
                                      StopComponentRequest(ViamName, Localhost), TerminateRequest]
                                   else
                                     [StartRequest(Localhost), StartComponentRequest(ViamName, Localhost),
                                      StartComponentRequest(NmbtName, Localhost),
                                      StopComponentRequest(NmbtName, Localhost),
                                      StopComponentRequest(ViamName, Localhost), TerminateRequest])
                  && (r.Fail? ==> r.error.H2EndFailed?)
                  && Signal(st.sup.tclserv.value.pid, Term) in os.events)
  {
    var home := os.GetEnv(HomeVar);
    if home.None? {
      return Fail(HomeUnset), null;
    }
    var genom := new Genom();
    g := genom;
    ghost var w0 := old(os.Snapshot());
    assert os.Snapshot() == w0;
    ghost var st := StartStep(Idle, w0, os.oracle, Localhost);
    StepsKeepEnvironment(Idle, w0, os.oracle, ViamName, Localhost);
    var entered := genom.Enter(os);
    assert entered.Ok? <==> st.outcome.Pass?;
    if entered.Err? {
      r := Fail(entered.error);
      return;
    }
    StartPassHolds(Idle, w0, os.oracle, Localhost);
    ghost var t := genom.tclserv.value;
    assert HomeVar != GenomPathVar;
    assert os.env[HomeVar] == w0.env[HomeVar];
    assert g.State() == st.sup && os.Snapshot() == st.world;
    ghost var h := genom.history;
    var viamEntered, nmbtEntered := ViamNmbtBracket(genom, os);
    ghost var before := os.Snapshot();
    TerminateTrace(genom.State(), before, os.oracle);
    var x := genom.Exit(os);
    NmbtTestHistory(h, viamEntered, nmbtEntered);
    assert os.events[|before.events|] == Signal(t.pid, Term);
    r := if x.Ok? then Pass else Fail(x.error);
  }
}
