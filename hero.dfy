/**
 * The hero banner: the WebGL probe, the gate that schedules the optional
 * 3D background, which scene is shown, and the call-to-action button.
 */
module HeroGate {
  import opened Wrappers
  import App
  import ErrorBoundary

  /** The outcome of one `canvas.getContext(kind)` call. */
  datatype ContextProbe =
    | Context     // a rendering context was returned
    | NoContext   // `null` was returned
    | ProbeThrows // the call threw

  /** What the browser answers when `canWebGL` is computed. */
  datatype WebGLEnvironment =
    | NoDocument  // `typeof document === 'undefined'`
    | Document(createThrows: bool, webgl: ContextProbe, experimental: ContextProbe)

  /** `canWebGL`: false without a document or when probing throws; otherwise
      true when a `webgl` context is obtained or, failing that, an
      `experimental-webgl` one. The second probe runs only when the first
      returned `null`. */
  function CanWebGL(env: WebGLEnvironment): (ok: bool)
    ensures ok <==> env.Document? && !env.createThrows &&
                    (env.webgl == Context || (env.webgl == NoContext && env.experimental == Context))
  {
    match env
    case NoDocument => false
    case Document(createThrows, webgl, experimental) =>
      if createThrows then false
      else match webgl
        case ProbeThrows => false
        case Context => true
        case NoContext => experimental == Context
  }

  /** Once the `webgl` probe has produced a context, the `experimental-webgl`
      probe is never consulted, so nothing it would do matters. */
  lemma ExperimentalProbeShortCircuited(createThrows: bool, x: ContextProbe, y: ContextProbe)
    ensures CanWebGL(Document(createThrows, Context, x)) == CanWebGL(Document(createThrows, Context, y))
  {
  }

  /** `requestIdleCallback` is given this timeout, in milliseconds. */
  const IdleTimeout: nat := 1000

  /** `setTimeout` is given this delay, in milliseconds, when there is no
      `requestIdleCallback`. */
  const FallbackDelay: nat := 250

  /** A scheduled call of `activate`, not yet fired. */
  datatype Activation =
    | IdleCallback(timeout: nat)
    | Timer(delay: nat)

  /** The part of the hero's state the gate owns: the `enable3D` flag and
      the activations scheduled but not yet fired. */
  datatype GateState = GateState(enable3D: bool, pending: seq<Activation>)

  /** `enable3D` starts false and nothing is scheduled. */
  const InitialGate := GateState(false, [])

  /** The activation one effect run schedules: through `requestIdleCallback`
      when `window` has it, through `setTimeout` otherwise. */
  function ScheduledBy(idleAvailable: bool): Activation {
    if idleAvailable then IdleCallback(IdleTimeout) else Timer(FallbackDelay)
  }

  /** The gate lets an effect run schedule an activation only when motion is
      not reduced and WebGL is available. */
  predicate GateOpen(reducedMotion: bool, canWebGL: bool) {
    !reducedMotion && canWebGL
  }

  /** One run of the effect with the values it closes over. */
  function AfterEffect(g: GateState, reducedMotion: bool, canWebGL: bool, idleAvailable: bool): (g': GateState)
    ensures g'.enable3D == g.enable3D
    ensures !GateOpen(reducedMotion, canWebGL) ==> g' == g
    ensures GateOpen(reducedMotion, canWebGL) ==>
              |g'.pending| == |g.pending| + 1 && g'.pending[..|g.pending|] == g.pending
    ensures GateOpen(reducedMotion, canWebGL) ==>
              g'.pending[|g.pending|] == (if idleAvailable then IdleCallback(1000) else Timer(250))
  {
    if !GateOpen(reducedMotion, canWebGL) then g
    else GateState(g.enable3D, g.pending + [ScheduledBy(idleAvailable)])
  }

  /** The scheduled activation at index `k` fires: `setEnable3D(true)`. */
  function AfterFire(g: GateState, k: nat): (g': GateState)
    requires k < |g.pending|
    ensures g'.enable3D
    ensures |g'.pending| == |g.pending| - 1
    ensures multiset(g'.pending) + multiset{g.pending[k]} == multiset(g.pending)
  {
    assert g.pending == g.pending[..k] + [g.pending[k]] + g.pending[k + 1..];
    GateState(true, g.pending[..k] + g.pending[k + 1..])
  }

  /** The events the hero sees: an effect run, or the firing of a pending
      activation (an index past the pending ones names nothing and is
      ignored). */
  datatype HeroEvent =
    | EffectRun(reducedMotion: bool, canWebGL: bool, idleAvailable: bool)
    | Fire(index: nat)

  function Step(g: GateState, e: HeroEvent): GateState {
    match e
    case EffectRun(reducedMotion, canWebGL, idleAvailable) => AfterEffect(g, reducedMotion, canWebGL, idleAvailable)
    case Fire(k) => if k < |g.pending| then AfterFire(g, k) else g
  }

  /** The gate state after the events `evs`, in order. */
  function Run(g: GateState, evs: seq<HeroEvent>): GateState
    decreases |evs|
  {
    if evs == [] then g else Run(Step(g, evs[0]), evs[1..])
  }

  /** `enable3D` is only ever set to true: once true, it stays true. */
  lemma {:induction false} EnableIsMonotone(g: GateState, evs: seq<HeroEvent>)
    requires g.enable3D
    ensures Run(g, evs).enable3D
    decreases |evs|
  {
    if evs != [] {
      EnableIsMonotone(Step(g, evs[0]), evs[1..]);
    }
  }

  /** Some event of `evs` is an effect run that passed the gate. */
  predicate SomeRunPassedGate(evs: seq<HeroEvent>) {
    exists i :: 0 <= i < |evs| && evs[i].EffectRun? && GateOpen(evs[i].reducedMotion, evs[i].canWebGL)
  }

  /** An activation can be pending, or `enable3D` true, only if the start
      state already had one of them or some effect run passed the gate. */
  lemma {:induction false} ArmedOnlyThroughGate(g: GateState, evs: seq<HeroEvent>)
    ensures (Run(g, evs).enable3D || |Run(g, evs).pending| > 0) ==>
              g.enable3D || |g.pending| > 0 || SomeRunPassedGate(evs)
    decreases |evs|
  {
    if evs != [] {
      var g1 := Step(g, evs[0]);
      ArmedOnlyThroughGate(g1, evs[1..]);
      if SomeRunPassedGate(evs[1..]) {
        var i :| 0 <= i < |evs[1..]| && evs[1..][i].EffectRun? && GateOpen(evs[1..][i].reducedMotion, evs[1..][i].canWebGL);
        assert evs[i + 1] == evs[1..][i];
      }
    }
  }

  /** From the initial state, `enable3D` becomes true only after an effect
      run that saw motion allowed and WebGL available. */
  lemma EnabledOnlyAfterOpenGate(evs: seq<HeroEvent>)
    ensures Run(InitialGate, evs).enable3D ==> SomeRunPassedGate(evs)
  {
    ArmedOnlyThroughGate(InitialGate, evs);
  }

  /** `canWebGL` is computed once, so every effect run sees the same value;
      when it is false, `enable3D` stays false whatever else happens. */
  lemma NoWebGLNeverEnables(env: WebGLEnvironment, evs: seq<HeroEvent>)
    requires !CanWebGL(env)
    requires forall i :: 0 <= i < |evs| && evs[i].EffectRun? ==> evs[i].canWebGL == CanWebGL(env)
    ensures !Run(InitialGate, evs).enable3D
  {
    EnabledOnlyAfterOpenGate(evs);
  }

  /** The hero reads `reducedMotion` from its own `useTheme`, whose state
      starts false and takes the media query's answer only after the mount
      effects. On a reduced-motion system the first effect run therefore
      still schedules an activation, and the later run that sees `true`
      does not cancel it: the 3D background is enabled all the same. */
  lemma ReducedMotionSystemStillEnables()
    ensures var evs := [EffectRun(false, true, true), EffectRun(true, true, true), Fire(0)];
            Run(InitialGate, evs).enable3D
  {
    var evs := [EffectRun(false, true, true), EffectRun(true, true, true), Fire(0)];
    var g1 := Step(InitialGate, evs[0]);
    assert g1 == GateState(false, [IdleCallback(IdleTimeout)]);
    var g2 := Step(g1, evs[1]);
    assert g2 == g1;
    assert Run(InitialGate, evs) == Run(g2, [Fire(0)]);
  }

  /** The decorative scenes. */
  datatype Scene = Grid3D | Globe3D

  /** The background slot of the hero: nothing until `enable3D`, then the
      grid inside an error boundary whose fallback is the globe. */
  function Background(enable3D: bool, boundaryHasError: bool): (r: Option<Scene>)
    ensures r == Some(Grid3D) <==> enable3D && !boundaryHasError
    ensures r == Some(Globe3D) <==> enable3D && boundaryHasError
    ensures r.None? <==> !enable3D
  {
    if !enable3D then None
    else ErrorBoundary.Render(ErrorBoundary.BoundaryState(boundaryHasError), Some(Globe3D), Grid3D)
  }

  /** The `Hero` component: the memoised `canWebGL`, its `enable3D` state
      and the activations its effect has scheduled. */
  class HeroComponent {
    const canWebGL: bool
    var enable3D: bool
    var pending: seq<Activation>

    function Gate(): GateState
      reads this
    {
      GateState(enable3D, pending)
    }

    /** First render: `canWebGL` is computed once from the environment and
        `enable3D` starts false. */
    constructor (env: WebGLEnvironment)
      ensures canWebGL == CanWebGL(env) && Gate() == InitialGate
    {
      canWebGL := CanWebGL(env);
      enable3D := false;
      pending := [];
    }

    /** One run of the effect keyed on `[reducedMotion, canWebGL]`; it
        returns no cleanup. */
    method RunEffect(reducedMotion: bool, idleAvailable: bool)
      modifies this
      ensures Gate() == AfterEffect(old(Gate()), reducedMotion, canWebGL, idleAvailable)
    {
      if reducedMotion || !canWebGL {
        return;
      }
      var activation := if idleAvailable then IdleCallback(IdleTimeout) else Timer(FallbackDelay);
      pending := pending + [activation];
    }

    /** The runtime calls the pending activation at index `k`. */
    method Fire(k: nat)
      requires k < |pending|
      modifies this
      ensures Gate() == AfterFire(old(Gate()), k)
    {
      pending := pending[..k] + pending[k + 1..];
      enable3D := true;
    }

    /** "Explore My Work": `scrollToSection?.('projects')`, where `app` is
        the component that passed the callback, or null when none was. */
    method OnExploreClick(app: App.AppComponent?, layout: App.Layout, engineRegistered: bool)
      modifies app
      ensures app != null ==>
                app.scrollCalls == old(app.scrollCalls) +
                  (if layout.projects.Some? then
                     [if engineRegistered then App.EngineScrollTo(App.Projects) else App.NativeScrollIntoView(App.Projects)]
                   else [])
      ensures app != null ==> app.activeSection == old(app.activeSection) && app.subscribed == old(app.subscribed)
    {
      if app != null {
        var _ := app.ScrollToSection("projects", layout, engineRegistered);
      }
    }
  }
}
