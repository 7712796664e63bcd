/**
 * The Viam camera component: the enumerations its remote procedures take,
 * and the bracket that starts the `viam` component under a GenoM supervisor,
 * waits for its readiness marker, and stops it again.
 */
module ViamComponent {
  import opened Wrappers
  import opened System
  import opened GenomShell
  import opened Genom
  import opened Util

  const ImageUpdateNames: seq<string> := ["", "SINGLE_BUFFERING", "DOUBLE_BUFFERING"]
  const ActiveNames: seq<string> := ["DISABLE", "ENABLE"]
  const HwCropNames: seq<string> := ["FIXED", "CROP"]
  const HwSizeNames: seq<string> :=
    ["INVALID", "_160x120", "_320x240", "_512x384", "_640x480", "_800x600", "_1024x768", "_1280x960", "_1600x1200"]
  const HwFmtNames: seq<string> := ["INVALID", "MONO8", "MONO16", "YUV411", "YUV422", "YUV444", "RGB888"]
  const HwFpsNames: seq<string> := ["INVALID", "_1_875", "_3_75", "_7_5", "_15", "_30", "_60", "_120", "_240"]
  const HwTriggerNames: seq<string> := ["INVALID", "INTERNAL", "MODE0_HIGH", "MODE0_LOW", "MODE1_LOW", "MODE1_HIGH"]
  const IONames: seq<string> := ["LOAD", "SAVE"]
  const OnOffNames: seq<string> := ["OFF", "ON"]
  const FilterNames: seq<string> :=
    ["NONE", "FORMAT", "SUBSAMPLE", "SCALE", "DISTORT", "RECTIFY", "BRIGHTNESS", "EXPOSURE", "SHARPNESS",
     "GAIN", "SHUTTER", "WHITE_BALANCE", "HUE", "SATURATION", "GAMMA", "TEMPERATURE", "ZOOM", "FOCUS", "LOG"]
  const FilterMethodNames: seq<string> := ["INVALID", "OFF", "HARDWARE", "", "SOFTWARE"]
  const FilterAutomodeNames: seq<string> :=
    ["INVALID", "MANUAL", "HARDWARE_AUTO", "", "HARDWARE_ONE_PUSH", "", "", "", "SOFTWARE_AUTO",
     "", "", "", "", "", "", "", "SOFTWARE_ONE_PUSH"]

  /** The tables the module-level `enum` objects hold. */
  const ImageUpdate: map<string, nat> := Table(ImageUpdateNames)
  const Active: map<string, nat> := Table(ActiveNames)
  const HwCrop: map<string, nat> := Table(HwCropNames)
  const HwSize: map<string, nat> := Table(HwSizeNames)
  const HwFmt: map<string, nat> := Table(HwFmtNames)
  const HwFps: map<string, nat> := Table(HwFpsNames)
  const HwTrigger: map<string, nat> := Table(HwTriggerNames)
  const IO: map<string, nat> := Table(IONames)
  const OnOff: map<string, nat> := Table(OnOffNames)
  const Filter: map<string, nat> := Table(FilterNames)
  const FilterMethod: map<string, nat> := Table(FilterMethodNames)
  const FilterAutomode: map<string, nat> := Table(FilterAutomodeNames)

  /** Image banks: the blank name is 0, then single and double buffering. */
  lemma ImageUpdateValues()
    ensures "" in ImageUpdate && ImageUpdate[""] == 0
    ensures "SINGLE_BUFFERING" in ImageUpdate && ImageUpdate["SINGLE_BUFFERING"] == 1
    ensures "DOUBLE_BUFFERING" in ImageUpdate && ImageUpdate["DOUBLE_BUFFERING"] == 2
  {
    TableLast(ImageUpdateNames, 0);
    TableLast(ImageUpdateNames, 1);
    TableLast(ImageUpdateNames, 2);
  }

  /** Frame sizes: INVALID is 0; the test's 640x480 is 4. */
  lemma HwSizeValues()
    ensures "INVALID" in HwSize && HwSize["INVALID"] == 0
    ensures "_640x480" in HwSize && HwSize["_640x480"] == 4
  {
    TableLast(HwSizeNames, 0);
    TableLast(HwSizeNames, 4);
  }

  /** Pixel formats: INVALID is 0; the test's MONO8 is 1. */
  lemma HwFmtValues()
    ensures "INVALID" in HwFmt && HwFmt["INVALID"] == 0
    ensures "MONO8" in HwFmt && HwFmt["MONO8"] == 1
  {
    TableLast(HwFmtNames, 0);
    TableLast(HwFmtNames, 1);
  }

  /** Frame rates: INVALID is 0; the test's 30 fps is 5. */
  lemma HwFpsValues()
    ensures "INVALID" in HwFps && HwFps["INVALID"] == 0
    ensures "_30" in HwFps && HwFps["_30"] == 5
  {
    TableLast(HwFpsNames, 0);
    TableLast(HwFpsNames, 5);
  }

  /** Trigger modes: INVALID is 0; the test's internal trigger is 1. */
  lemma HwTriggerValues()
    ensures "INVALID" in HwTrigger && HwTrigger["INVALID"] == 0
    ensures "INTERNAL" in HwTrigger && HwTrigger["INTERNAL"] == 1
  {
    TableLast(HwTriggerNames, 0);
    TableLast(HwTriggerNames, 1);
  }

  /** The two-valued switches the test passes. */
  lemma SwitchValues()
    ensures "ENABLE" in Active && Active["ENABLE"] == 1
    ensures "FIXED" in HwCrop && HwCrop["FIXED"] == 0
    ensures "LOAD" in IO && IO["LOAD"] == 0
    ensures "ON" in OnOff && OnOff["ON"] == 1
  {
    TableLast(ActiveNames, 1);
    TableLast(HwCropNames, 0);
    TableLast(IONames, 0);
    TableLast(OnOffNames, 1);
  }

  /** Filters: RECTIFY is 5; the software method is 4, after the blank at 3. */
  lemma FilterValues()
    ensures "RECTIFY" in Filter && Filter["RECTIFY"] == 5
    ensures "SOFTWARE" in FilterMethod && FilterMethod["SOFTWARE"] == 4
    ensures "" in FilterMethod && FilterMethod[""] == 3
  {
    TableLast(FilterNames, 5);
    TableLast(FilterMethodNames, 4);
    TableLast(FilterMethodNames, 3);
  }

  /** Automatic filter modes are bit flags; manual mode is 1. */
  lemma FilterAutomodeManualValue()
    ensures "MANUAL" in FilterAutomode && FilterAutomode["MANUAL"] == 1
  {
    TableLast(FilterAutomodeNames, 1);
  }

  /** Hardware automatic mode is 2. */
  lemma FilterAutomodeHardwareValue()
    ensures "HARDWARE_AUTO" in FilterAutomode && FilterAutomode["HARDWARE_AUTO"] == 2
  {
    TableLast(FilterAutomodeNames, 2);
  }

  /** Hardware one-push 4, software automatic 8. */
  lemma FilterAutomodeMiddleValues()
    ensures "HARDWARE_ONE_PUSH" in FilterAutomode && FilterAutomode["HARDWARE_ONE_PUSH"] == 4
    ensures "SOFTWARE_AUTO" in FilterAutomode && FilterAutomode["SOFTWARE_AUTO"] == 8
  {
    TableLast(FilterAutomodeNames, 4);
    TableLast(FilterAutomodeNames, 8);
  }

  /** Software one-push 16; the blank names between the flags collapse to
      one entry holding the last blank position, 15. */
  lemma FilterAutomodeSoftwareValues()
    ensures "SOFTWARE_ONE_PUSH" in FilterAutomode && FilterAutomode["SOFTWARE_ONE_PUSH"] == 16
    ensures "" in FilterAutomode && FilterAutomode[""] == 15
  {
    TableLast(FilterAutomodeNames, 16);
    TableLast(FilterAutomodeNames, 15);
  }

  // ---------------------------------------------------------------------------
  // The component bracket

  const ViamName: string := "viam"

  /** A `Viam` object: the supervisor it starts and stops `viam` with. */
  class Viam {
    const genom: Genom

    constructor (genom: Genom)
      ensures this.genom == genom
    {
      this.genom := genom;
    }

    /** `start`: start `viam` on the local host. */
    method Start(os: Os) returns (r: Outcome<Error>)
      requires genom.Valid(os)
      modifies genom, os`env, os`events
      ensures genom.Valid(os)
      ensures Step(genom.State(), os.Snapshot(), r) ==
                StartComponentStep(old(genom.State()), old(os.Snapshot()), os.oracle, ViamName, Localhost)
      ensures genom.history == old(genom.history) + [StartComponentRequest(ViamName, Localhost)]
    {
      r := genom.StartComponent(os, ViamName, Localhost);
    }

    /** `stop`: stop `viam` on the local host. */
    method Stop(os: Os) returns (r: Outcome<Error>)
      requires genom.Valid(os)
      modifies genom, os`env, os`events
      ensures genom.Valid(os)
      ensures Step(genom.State(), os.Snapshot(), r) ==
                StopComponentStep(old(genom.State()), old(os.Snapshot()), os.oracle, ViamName, Localhost)
      ensures genom.history == old(genom.history) + [StopComponentRequest(ViamName, Localhost)]
    {
      r := genom.StopComponent(os, ViamName, Localhost);
    }

    /** `__enter__`: start `viam`, then wait for its marker. A failed start
        raises before any polling; with HOME unset the first probe raises. */
    method Enter(os: Os) returns (r: Result<Viam, Error>)
      requires genom.Valid(os)
      requires MarkerEventually(os, ViamName)
      modifies genom, os`env, os`events, os`now
      ensures genom.Valid(os)
      ensures var st := StartComponentStep(old(genom.State()), old(os.Snapshot()), os.oracle, ViamName, Localhost);
              && genom.State() == st.sup && os.Snapshot() == st.world
              && (st.outcome.Fail? ==> r == Err(st.outcome.error) && os.now == old(os.now))
              && (st.outcome.Pass? && HomeVar !in os.env ==> r == Err(HomeUnset) && os.now == old(os.now))
              && (st.outcome.Pass? && HomeVar in os.env ==>
                    && r == Ok(this) && old(os.now) <= os.now && MarkerAt(os, ViamName, os.now)
                    && forall t :: old(os.now) <= t < os.now ==> !MarkerAt(os, ViamName, t))
      ensures SameExceptGenomPath(old(os.env), os.env)
      ensures genom.history == old(genom.history) + [StartComponentRequest(ViamName, Localhost)]
    {
      StepsKeepEnvironment(genom.State(), os.Snapshot(), os.oracle, ViamName, Localhost);
      ghost var env0 := os.env;
      var s := Start(os);
      if s.Fail? {
        return Err(s.error);
      }
      assert HomeVar != GenomPathVar;
      assert HomeVar in env0 ==> os.env[HomeVar] == env0[HomeVar];
      var ready := AwaitReady(os, ViamName);
      if ready.Fail? {
        return Err(ready.error);
      }
      r := Ok(this);
    }

    /** `__exit__`: stop `viam`, then return this object, which is truthy:
        an exception raised in the bracket's body is suppressed. */
    method Exit(os: Os) returns (r: Result<bool, Error>)
      requires genom.Valid(os)
      modifies genom, os`env, os`events
      ensures genom.Valid(os)
      ensures var st := StopComponentStep(old(genom.State()), old(os.Snapshot()), os.oracle, ViamName, Localhost);
              && genom.State() == st.sup && os.Snapshot() == st.world
              && r == (if st.outcome.Pass? then Ok(true) else Err(st.outcome.error))
      ensures SameExceptGenomPath(old(os.env), os.env)
      ensures genom.history == old(genom.history) + [StopComponentRequest(ViamName, Localhost)]
    {
      StepsKeepEnvironment(genom.State(), os.Snapshot(), os.oracle, ViamName, Localhost);
      var s := Stop(os);
      r := if s.Pass? then Ok(true) else Err(s.error);
    }
  }

  /** The inner `with Viam(g) as v:` bracket of the module's own test. Its
      body catches every exception itself; `__exit__` runs only when
      `__enter__` returned. What it raises is suppressed by the outer
      bracket, so only whether it was entered is returned. */
  method ViamBracket(g: Genom, os: Os) returns (entered: bool)
    requires g.Valid(os)
    requires MarkerEventually(os, ViamName)
    modifies g, os`env, os`events, os`now
    ensures g.Valid(os)
    ensures entered == (StartComponentStep(old(g.State()), old(os.Snapshot()), os.oracle, ViamName, Localhost).outcome.Pass?
                        && HomeVar in old(os.env))
    ensures g.history == old(g.history) + [StartComponentRequest(ViamName, Localhost)]
                         + (if entered then [StopComponentRequest(ViamName, Localhost)] else [])
    ensures g.tclserv == old(g.tclserv)
    ensures Extends(old(os.Snapshot()), os.Snapshot())
  {
    ghost var w0 := os.Snapshot();
    ghost var sc := StartComponentStep(g.State(), w0, os.oracle, ViamName, Localhost);
    StartComponentShape(g.State(), w0, os.oracle, ViamName, Localhost);
    StepsKeepEnvironment(g.State(), w0, os.oracle, ViamName, Localhost);
    var v := new Viam(g);
    var inner := v.Enter(os);
    entered := inner.Ok?;
    if entered {
      StopComponentShape(sc.sup, sc.world, os.oracle, ViamName, Localhost);
      var stopped := v.Exit(os);
      ExtendsTransitive(w0, sc.world, os.Snapshot());
    }
  }

  /** The requests of the module's own test, spelled out. */
  lemma ViamTestHistory(h: seq<Request>, entered: bool)
    requires h == [StartRequest(Localhost)]
    ensures h + [StartComponentRequest(ViamName, Localhost)]
              + (if entered then [StopComponentRequest(ViamName, Localhost)] else []) + [TerminateRequest]
            == if entered
               then [StartRequest(Localhost), StartComponentRequest(ViamName, Localhost),
                     StopComponentRequest(ViamName, Localhost), TerminateRequest]
               else [StartRequest(Localhost), StartComponentRequest(ViamName, Localhost), TerminateRequest]
  {
  }

  /** The module's own test: a supervisor bracket around a `viam` bracket.
      The body's remote calls catch every exception themselves, so what
      escapes is decided by the brackets: a failed supervisor start raises
      before anything else; after it, `terminate` always runs, `__exit__`
      returns a truthy object and so suppresses whatever the inner bracket
      raised, and only a failing `h2 end` can still escape. */
  method BasicTest(os: Os) returns (r: Outcome<Error>, g: Genom)
    requires MarkerEventually(os, ViamName)
    modifies os`env, os`events, os`now
    ensures fresh(g)
    ensures var st := StartStep(Idle, old(os.Snapshot()), os.oracle, Localhost);
            var sc := StartComponentStep(st.sup, st.world, os.oracle, ViamName, Localhost);
            && (st.outcome.Fail? ==>
                  r == st.outcome && g.history == [StartRequest(Localhost)] && os.Snapshot() == st.world)
            && (st.outcome.Pass? ==>
                  && g.history == (if sc.outcome.Pass? && HomeVar in old(os.env)
                                   then [StartRequest(Localhost), StartComponentRequest(ViamName, Localhost),
                                         StopComponentRequest(ViamName, Localhost), TerminateRequest]
                                   else [StartRequest(Localhost), StartComponentRequest(ViamName, Localhost),
                                         TerminateRequest])
                  && (r.Fail? ==> r.error.H2EndFailed?)
                  && Signal(st.sup.tclserv.value.pid, Term) in os.events)
  {
    g := new Genom();
    ghost var w0 := old(os.Snapshot());
    assert os.Snapshot() == w0;
    ghost var st := StartStep(Idle, w0, os.oracle, Localhost);
    StepsKeepEnvironment(Idle, w0, os.oracle, ViamName, Localhost);
    var entered := g.Enter(os);
    assert entered.Ok? <==> st.outcome.Pass?;
    if entered.Err? {
      r := Fail(entered.error);
      return;
    }
    StartPassHolds(Idle, w0, os.oracle, Localhost);
    ghost var t := g.tclserv.value;
    assert HomeVar != GenomPathVar;
    assert HomeVar in w0.env ==> os.env[HomeVar] == w0.env[HomeVar];
    assert g.State() == st.sup && os.Snapshot() == st.world;
    ghost var sc := StartComponentStep(st.sup, st.world, os.oracle, ViamName, Localhost);
    ghost var h := g.history;
    var inner := ViamBracket(g, os);
    assert inner == (sc.outcome.Pass? && HomeVar in old(os.env));
    ghost var before := os.Snapshot();
    TerminateTrace(g.State(), before, os.oracle);
    var x := g.Exit(os);
    ViamTestHistory(h, inner);
    assert os.events[|before.events|] == Signal(t.pid, Term);
    r := if x.Ok? then Pass else Fail(x.error);
  }
}
